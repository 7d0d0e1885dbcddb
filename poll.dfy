/** The poll aggregate of discord/poll.py: poll media, answers, answer counts
    and the `Poll` object with its two origins, a locally built draft and a
    poll hydrated from a message payload.

    Times are integers in microseconds (the resolution of Python's
    `timedelta`); hours are exact reals. Requests to the platform are not
    performed: `End` records the request it issues in the ghost log
    `issued`, and the voter lookups return the request they would issue. */
module Polls {
  import opened Common
  import opened Emojis

  const MicrosPerHour: int := 3_600_000_000
  /** The longest duration kept as is, in hours. */
  const MaxDurationHours: int := 168
  /** `timedelta(days=7)`, the value an over-long duration is replaced by. */
  const SevenDays: int := 7 * 24 * MicrosPerHour
  /** The layout used when a payload carries none (`PollLayoutType.default`). */
  const DefaultLayout: int := 1
  /** The default `limit` of an answer's voter lookup. */
  const DefaultVoterLimit: int := 25

  datatype PollError = RuntimeError(reason: string) | HttpException

  datatype Result<T> = Success(value: T) | Failure(error: PollError)

  // ---------------------------------------------------------------------
  // Wire shapes

  /** `{text, emoji?}` */
  datatype MediaPayload = MediaPayload(text: string, emoji: Option<EmojiPayload>)
  /** `{answer_id, poll_media}`, an answer as the server sends it. */
  datatype AnswerWithId = AnswerWithId(answerId: int, pollMedia: MediaPayload)
  /** `{poll_media}`, an answer as a new poll submits it. */
  datatype AnswerEntry = AnswerEntry(pollMedia: MediaPayload)
  /** `{id, me_voted, count}` */
  datatype CountPayload = CountPayload(id: int, meVoted: bool, count: int)
  /** The `results` envelope: `{is_finalized, answer_counts}`. */
  datatype ResultsPayload = ResultsPayload(isFinalized: bool, answerCounts: seq<CountPayload>)
  /** A poll as received with a message; `expiry` is already parsed. */
  datatype PollWithExpiry = PollWithExpiry(
    question: MediaPayload,
    answers: seq<AnswerWithId>,
    allowMultiselect: Option<bool>,
    layoutType: Option<int>,
    expiry: int,
    results: Option<ResultsPayload>)
  /** A poll as submitted: `{allow_multiselect, question, duration, layout_type, answers}`. */
  datatype PollPayload = PollPayload(
    allowMultiselect: bool,
    question: MediaPayload,
    duration: real,
    layoutType: int,
    answers: seq<AnswerEntry>)
  /** The parts of the message payload the end-poll request returns that the model keeps. */
  datatype MessagePayload = MessagePayload(id: nat, createdAt: int)

  /** A request to the platform. */
  datatype Request =
    | VotersRequest(channelId: nat, messageId: nat, answerId: int, after: Option<nat>, limit: int)
    | EndPollRequest(channelId: nat, messageId: nat)

  // ---------------------------------------------------------------------
  // Poll media

  /** `PollMedia`, as a caller builds it. */
  datatype PollMedia = PollMedia(text: string, emoji: Option<Emoji>)

  /** The question a caller passes to `Poll(...)`: a string or a media. */
  datatype Question = QuestionText(text: string) | QuestionMedia(media: PollMedia)

  /** The media of an answer. Every answer's media is made by
      `PollMedia.from_dict`, which reads a missing emoji map as an empty one,
      so an answer always has a partial emoji. */
  datatype AnswerMedia = AnswerMedia(text: string, emoji: PartialEmoji)

  /** The partial emoji read from an empty emoji map. The emoji classes are
      not part of this model, so which emoji that is stays unspecified. */
  const EmptyMapEmoji: PartialEmoji

  /** The emoji map `PollMedia.to_dict` writes for an emoji. */
  function MediaEmojiToDict(e: Emoji): EmojiPayload {
    match e
    case Custom(name, id) => EmojiPayload(name, Some(id))
    case Partial(p) => PartialToDict(p)
    case Unicode(s) => EmojiPayload(s, None)
  }

  /** `PollMedia.to_dict`: `text` always, `emoji` only when a (truthy) emoji
      is set, as `{name, id}` for a custom emoji and `{name}` for a string. */
  function MediaToDict(m: PollMedia): (r: MediaPayload)
    ensures r.text == m.text
    ensures r.emoji.Some? <==> m.emoji.Some? && Truthy(m.emoji.value)
    ensures r.emoji.Some? ==> r.emoji.value.name == EmojiName(m.emoji.value)
    ensures r.emoji.Some? && m.emoji.value.Custom? ==> r.emoji.value.id == Some(m.emoji.value.id)
    ensures r.emoji.Some? && m.emoji.value.Unicode? ==> r.emoji.value.id.None?
  {
    MediaPayload(m.text,
      if m.emoji.Some? && Truthy(m.emoji.value) then Some(MediaEmojiToDict(m.emoji.value)) else None)
  }

  /** `PollMedia.from_dict`: the text, and the emoji map (an empty one when
      the key is missing) read as a partial emoji. */
  function MediaFromDict(d: MediaPayload): (r: AnswerMedia)
    ensures r.text == d.text
    ensures d.emoji.Some? ==> PartialToDict(r.emoji) == d.emoji.value
    ensures d.emoji.None? ==> r.emoji == EmptyMapEmoji
  {
    AnswerMedia(d.text, if d.emoji.Some? then PartialFromDict(d.emoji.value) else EmptyMapEmoji)
  }

  /** Reading back what `PollMedia.to_dict` wrote keeps the text, the emoji's
      name and a custom emoji's id; a media without a truthy emoji reads back
      with the empty-map emoji. */
  lemma MediaRoundTrip(m: PollMedia)
    ensures MediaFromDict(MediaToDict(m)).text == m.text
    ensures m.emoji.Some? && Truthy(m.emoji.value) ==>
              MediaFromDict(MediaToDict(m)).emoji.name == EmojiName(m.emoji.value)
    ensures !(m.emoji.Some? && Truthy(m.emoji.value)) ==> MediaFromDict(MediaToDict(m)).emoji == EmptyMapEmoji
    ensures m.emoji.Some? && m.emoji.value.Custom? ==>
              MediaFromDict(MediaToDict(m)).emoji == PartialEmoji(m.emoji.value.name, Some(m.emoji.value.id))
  {
  }

  /** The emoji map `PollAnswer.from_params` writes: a custom emoji's id only
      when it is non-zero. */
  function ParamsEmojiToDict(e: Emoji): EmojiPayload {
    match e
    case Custom(name, id) => EmojiPayload(name, if id != 0 then Some(id) else None)
    case Partial(p) => PartialToDict(p)
    case Unicode(s) => EmojiPayload(s, None)
  }

  /** `from_params` and `PollMedia.to_dict` write the same emoji map, except
      for a custom emoji whose id is 0. */
  lemma ParamsAgreeWithMedia(text: string, emoji: Option<Emoji>)
    requires emoji.Some? && emoji.value.Custom? ==> emoji.value.id != 0
    ensures ParamsPayload(0, text, emoji).pollMedia == MediaToDict(PollMedia(text, emoji))
  {
  }

  // ---------------------------------------------------------------------
  // Answers and answer counts

  /** The checks shared by both kinds of answer before a voter lookup: with
      no message or no connection, `RuntimeError` and no request; otherwise
      one voters request for this answer with the given cursor and limit. */
  function VotersFor(message: Option<Message>, state: Option<ConnectionState>, answerId: int,
                     after: Option<nat>, limit: int): (r: Result<Request>)
    ensures r.Failure? <==> message.None? || state.None?
    ensures r.Failure? ==> r.error.RuntimeError?
    ensures r.Success? ==> r.value == VotersRequest(message.value.channel.id, message.value.id, answerId, after, limit)
  {
    if message.None? || state.None? then
      Failure(RuntimeError("You cannot fetch users in a non-message-attached poll"))
    else
      Success(VotersRequest(message.value.channel.id, message.value.id, answerId, after, limit))
  }

  /** `PollAnswer`: its id, its media and, for a poll attached to a message,
      that message and its connection. */
  datatype PollAnswer = PollAnswer(id: int, media: AnswerMedia, message: Option<Message>, state: Option<ConnectionState>) {

    /** `users()`: the voters request for this answer, or `RuntimeError` for
        an answer of a poll that is not attached to a message. */
    function Users(after: Option<nat> := None, limit: int := DefaultVoterLimit): (r: Result<Request>)
      ensures r.Failure? <==> message.None? || state.None?
      ensures r.Failure? ==> r.error.RuntimeError?
      ensures r.Success? ==> r.value == VotersRequest(message.value.channel.id, message.value.id, id, after, limit)
    {
      VotersFor(message, state, id, after, limit)
    }

    /** `get_count()`: `None` without a message; otherwise the count with
        this answer's id in the poll `host` the message holds, found whenever
        that poll has one. */
    function GetCount(host: Poll): (r: Option<PollAnswerCount>)
      reads host
      ensures message.None? ==> r.None?
      ensures r.Some? ==> r.value.id == id && host.counts.Some? && r.value in host.counts.value
      ensures message.Some? && host.counts.Some? && host.counts.value != [] ==>
                (r.None? <==> forall i :: 0 <= i < |host.counts.value| ==> host.counts.value[i].id != id)
    {
      if message.None? then None else host.GetAnswerCount(id)
    }

    /** `_to_dict()`: the text and the emoji's map. An answer always has an
        emoji, so the map is always written, and it reads back as this
        answer's media. */
    function ToDict(): (r: MediaPayload)
      ensures r.text == media.text && r.emoji.Some?
      ensures MediaFromDict(r) == media
    {
      MediaPayload(media.text, Some(PartialToDict(media.emoji)))
    }
  }

  /** `PollAnswer(data=..., message=...)`: the id taken verbatim, the media
      read from the payload, the connection of the message when there is one.
      A payload with an emoji map writes back unchanged; one without writes
      back with the empty-map emoji's map added. */
  function AnswerFromData(data: AnswerWithId, message: Option<Message>): (a: PollAnswer)
    ensures a.id == data.answerId && a.message == message
    ensures data.pollMedia.emoji.Some? ==> a.ToDict() == data.pollMedia
    ensures data.pollMedia.emoji.None? ==>
              a.ToDict() == MediaPayload(data.pollMedia.text, Some(PartialToDict(EmptyMapEmoji)))
    ensures a.state.Some? <==> message.Some?
  {
    PollAnswer(data.answerId, MediaFromDict(data.pollMedia), message,
               if message.Some? then Some(message.value.state) else None)
  }

  /** The payload `PollAnswer.from_params` builds before constructing the answer. */
  function ParamsPayload(id: int, text: string, emoji: Option<Emoji>): AnswerWithId {
    AnswerWithId(id, MediaPayload(text,
      if emoji.Some? && Truthy(emoji.value) then Some(ParamsEmojiToDict(emoji.value)) else None))
  }

  /** `PollAnswer.from_params(id, text, emoji, poll=...)`: an answer with that
      id and text and the poll's message (if any). Its emoji carries the name
      of the emoji given, when one is given and truthy, and a custom emoji's
      id unless it is 0; otherwise it is the empty-map emoji. */
  function FromParams(id: int, text: string, emoji: Option<Emoji>, pollMessage: Option<Message>): (a: PollAnswer)
    ensures a.id == id && a.media.text == text && a.message == pollMessage
    ensures emoji.Some? && Truthy(emoji.value) ==> a.media.emoji.name == EmojiName(emoji.value)
    ensures emoji.Some? && emoji.value.Custom? ==>
              a.media.emoji.id == (if emoji.value.id != 0 then Some(emoji.value.id) else None)
    ensures !(emoji.Some? && Truthy(emoji.value)) ==> a.media.emoji == EmptyMapEmoji
    ensures a.state.Some? <==> pollMessage.Some?
  {
    AnswerFromData(ParamsPayload(id, text, emoji), pollMessage)
  }

  /** `PollAnswerCount`: always built from a server payload, so it always has
      a message and a connection. */
  datatype PollAnswerCount = PollAnswerCount(id: int, selfVoted: bool, count: int, message: Message, state: ConnectionState) {

    /** `users()`: a count always has its message, so this never fails. */
    function Users(after: Option<nat> := None, limit: int := DefaultVoterLimit): (r: Result<Request>)
      ensures r == Success(VotersRequest(message.channel.id, message.id, id, after, limit))
    {
      VotersFor(Some(message), Some(state), id, after, limit)
    }

    /** `resolved`: the answer with this count's id in the poll `host` the
        message holds, found whenever that poll has one. */
    function Resolved(host: Poll): (r: Option<PollAnswer>)
      reads host
      ensures r.Some? ==> r.value.id == id && r.value in host.answers
      ensures r.None? <==> forall i :: 0 <= i < |host.answers| ==> host.answers[i].id != id
    {
      host.GetAnswer(id)
    }
  }

  /** `PollAnswerCount(state=..., message=..., data=...)`: the id, the vote
      flag and the count copied from the payload. The count keeps the message
      and the connection, so its voter lookup can never fail. */
  function CountFromData(data: CountPayload, message: Message, state: ConnectionState): (c: PollAnswerCount)
    ensures c.id == data.id && c.selfVoted == data.meVoted && c.count == data.count
    ensures forall after, limit :: c.Users(after, limit).Success?
  {
    PollAnswerCount(data.id, data.meVoted, data.count, message, state)
  }

  // ---------------------------------------------------------------------
  // Durations

  /** The duration derived at hydration: anything over 168 hours becomes
      exactly seven days, anything else is kept unchanged. */
  function ClampDuration(d: int): (r: int)
    ensures r <= SevenDays
    ensures d <= SevenDays ==> r == d
    ensures d > SevenDays ==> r == SevenDays
  {
    if d > MaxDurationHours * MicrosPerHour then SevenDays else d
  }

  /** `total_seconds() / 3600`, exactly. */
  function HoursOf(d: int): real {
    d as real / MicrosPerHour as real
  }

  // ---------------------------------------------------------------------
  // Building a draft

  /** The answer list after `add_answer`: one more answer at the end, with
      the next sequential id. */
  function Appended(answers: seq<PollAnswer>, text: string, emoji: Option<Emoji>, pollMessage: Option<Message>): seq<PollAnswer> {
    answers + [FromParams(|answers| + 1, text, emoji, pollMessage)]
  }

  /** The ids are 1, 2, ... in list order. */
  ghost predicate IdsSequential(answers: seq<PollAnswer>) {
    forall i :: 0 <= i < |answers| ==> answers[i].id == i + 1
  }

  /** One `add_answer` call's arguments. */
  datatype AnswerSpec = AnswerSpec(text: string, emoji: Option<Emoji>)

  /** The answers of a fresh poll after one `add_answer` per spec, in order. */
  function Drafted(specs: seq<AnswerSpec>, pollMessage: Option<Message>): seq<PollAnswer> {
    if specs == [] then []
    else
      var last := specs[|specs| - 1];
      Appended(Drafted(specs[..|specs| - 1], pollMessage), last.text, last.emoji, pollMessage)
  }

  /** After k `add_answer` calls on a fresh poll there are k answers, with
      ids exactly 1..k, carrying the given texts in the given order. */
  lemma {:induction false} DraftedIds(specs: seq<AnswerSpec>, pollMessage: Option<Message>)
    ensures |Drafted(specs, pollMessage)| == |specs|
    ensures IdsSequential(Drafted(specs, pollMessage))
    ensures forall i :: 0 <= i < |specs| ==> Drafted(specs, pollMessage)[i].media.text == specs[i].text
  {
    if specs != [] {
      var init := specs[..|specs| - 1];
      DraftedIds(init, pollMessage);
      var d := Drafted(specs, pollMessage);
      assert d == Drafted(init, pollMessage) + [FromParams(|specs|, specs[|specs| - 1].text, specs[|specs| - 1].emoji, pollMessage)];
      forall i | 0 <= i < |specs| ensures d[i].id == i + 1 && d[i].media.text == specs[i].text {
        if i < |specs| - 1 {
          assert d[i] == Drafted(init, pollMessage)[i];
          assert specs[i] == init[i];
        }
      }
    }
  }

  /** Appending keeps sequential ids sequential. */
  lemma AppendedKeepsIds(answers: seq<PollAnswer>, text: string, emoji: Option<Emoji>, pollMessage: Option<Message>)
    requires IdsSequential(answers)
    ensures IdsSequential(Appended(answers, text, emoji, pollMessage))
  {
  }

  // ---------------------------------------------------------------------
  // The poll

  class Poll {
    var questionMedia: PollMedia
    var answers: seq<PollAnswer>
    /** In microseconds. */
    var duration: int
    /** `_hours_duration`, fixed when the poll is built. */
    var hoursDuration: real
    var multiselect: bool
    /** The layout tag; `PollLayoutType` is opaque here. */
    var layoutType: int
    var message: Option<Message>
    var state: Option<ConnectionState>
    var finalized: bool
    var counts: Option<seq<PollAnswerCount>>
    /** In microseconds since the epoch. */
    var expiry: Option<int>
    /** The requests this poll has sent, oldest first. */
    ghost var issued: seq<Request>

    /** What every operation keeps: a poll has an expiry and a connection
        exactly when it has a message, a finalized poll has counts, and a
        draft has none. The hours value is not tied to `duration`, which a
        caller may reassign after the poll is built. */
    ghost predicate Valid()
      reads this
    {
      && (message.Some? <==> expiry.Some?)
      && (message.Some? <==> state.Some?)
      && (finalized ==> counts.Some?)
      && (message.None? ==> counts.None?)
    }

    /** `Poll(question, duration, multiselect=..., layout_type=...)`: a draft
        with no answers, no message, no connection, no expiry, no counts,
        and not finalized. */
    constructor (question: Question, duration: int, multiselect: bool := false, layoutType: int := DefaultLayout)
      ensures Valid()
      ensures questionMedia == (match question
                                case QuestionText(t) => PollMedia(t, None)
                                case QuestionMedia(m) => m)
      ensures answers == [] && this.duration == duration && hoursDuration == HoursOf(duration)
      ensures this.multiselect == multiselect && this.layoutType == layoutType
      ensures message.None? && state.None? && expiry.None? && counts.None? && !finalized
      ensures issued == []
    {
      questionMedia := match question
                       case QuestionText(t) => PollMedia(t, None)
                       case QuestionMedia(m) => m;
      answers := [];
      this.duration := duration;
      hoursDuration := HoursOf(duration);
      this.multiselect := multiselect;
      this.layoutType := layoutType;
      message := None;
      state := None;
      finalized := false;
      counts := None;
      expiry := None;
      issued := [];
    }

    /** `Poll._from_data`: a poll attached to `message`, with the payload's
        answers (ids verbatim), only the question's text, the multiselect
        flag (default false), the layout (default 1), the expiry, the
        duration `expiry - created_at` clamped to seven days, and the
        finalized flag and counts only when a results envelope is present. */
    static method FromData(data: PollWithExpiry, message: Message, state: ConnectionState) returns (p: Poll)
      ensures fresh(p) && p.Valid()
      ensures |p.answers| == |data.answers|
      ensures forall i :: 0 <= i < |data.answers| ==> p.answers[i] == AnswerFromData(data.answers[i], Some(message))
      ensures p.questionMedia == PollMedia(data.question.text, None)
      ensures p.multiselect == data.allowMultiselect.GetOr(false)
      ensures p.layoutType == data.layoutType.GetOr(DefaultLayout)
      ensures p.duration == ClampDuration(data.expiry - message.createdAt)
      ensures p.hoursDuration == HoursOf(p.duration)
      ensures p.message == Some(message) && p.state == Some(state) && p.expiry == Some(data.expiry)
      ensures data.results.None? ==> !p.finalized && p.counts.None?
      ensures data.results.Some? ==> p.finalized == data.results.value.isFinalized
      ensures data.results.Some? ==>
                p.counts.Some? && |p.counts.value| == |data.results.value.answerCounts|
                && forall i :: 0 <= i < |p.counts.value| ==>
                     p.counts.value[i] == CountFromData(data.results.value.answerCounts[i], message, state)
      ensures p.issued == []
    {
      var answers := seq(|data.answers|, i requires 0 <= i < |data.answers| => AnswerFromData(data.answers[i], Some(message)));
      var multiselect := data.allowMultiselect.GetOr(false);
      var layoutType := data.layoutType.GetOr(DefaultLayout);
      var question := data.question.text;
      var expiry := data.expiry;
      var duration := data.expiry - message.createdAt;
      if duration > MaxDurationHours * MicrosPerHour {
        duration := SevenDays;
      }
      p := new Poll(QuestionText(question), duration, multiselect, layoutType);
      p.answers := answers;
      p.message := Some(message);
      p.state := Some(state);
      p.expiry := Some(expiry);
      if data.results.Some? {
        var results := data.results.value;
        p.finalized := results.isFinalized;
        p.counts := Some(seq(|results.answerCounts|, i requires 0 <= i < |results.answerCounts| =>
                               CountFromData(results.answerCounts[i], message, state)));
      }
    }

    /** `_to_dict()`: multiselect, the question's media map, the hours stored
        when the poll was built, the layout, and one `{poll_media}` per answer
        in answer order, each of which reads back as that answer's media. */
    function ToDict(): (r: PollPayload)
      reads this
      ensures r.allowMultiselect == multiselect && r.layoutType == layoutType
      ensures r.question == MediaToDict(questionMedia)
      ensures r.duration == hoursDuration
      ensures |r.answers| == |answers|
      ensures forall i :: 0 <= i < |answers| ==> MediaFromDict(r.answers[i].pollMedia) == answers[i].media
    {
      PollPayload(multiselect, MediaToDict(questionMedia), hoursDuration, layoutType,
                  seq(|answers|, i requires 0 <= i < |answers| reads this => AnswerEntry(answers[i].ToDict())))
    }

    /** `len(poll)` */
    function Length(): nat
      reads this
    {
      |answers|
    }

    /** `is_finalized()`: false for a draft; true only with counts. */
    function IsFinalized(): (b: bool)
      reads this
      requires Valid()
      ensures b ==> counts.Some? && message.Some?
      ensures message.None? ==> !b
    {
      finalized
    }

    /** `answer_counts`: a copy of the counts, or `None` when there are none
        or the list is empty. */
    function AnswerCounts(): (r: Option<seq<PollAnswerCount>>)
      reads this
      ensures r.Some? <==> counts.Some? && counts.value != []
      ensures r.Some? ==> r.value == counts.value
    {
      if counts.Some? && counts.value != [] then counts else None
    }

    /** `add_answer(text=..., emoji=...)`: appends an answer whose id is one
        more than the number of answers, leaves the earlier answers and every
        other field alone, and returns this same poll. An attached poll is
        not refused. */
    method AddAnswer(text: string, emoji: Option<Emoji> := None) returns (self: Poll)
      requires Valid()
      modifies this`answers
      ensures Valid() && self == this
      ensures answers == Appended(old(answers), text, emoji, message)
      ensures Length() == old(Length()) + 1 && answers[..old(Length())] == old(answers)
      ensures answers[|answers| - 1].id == old(Length()) + 1
      ensures IdsSequential(old(answers)) ==> IdsSequential(answers)
    {
      var answer := FromParams(|answers| + 1, text, emoji, message);
      answers := answers + [answer];
      self := this;
    }

    /** `get_answer(id)`: the first answer with that id, or `None`. */
    function GetAnswer(id: int): (r: Option<PollAnswer>)
      reads this
      ensures r.None? <==> forall i :: 0 <= i < |answers| ==> answers[i].id != id
      ensures r.Some? ==> exists i :: 0 <= i < |answers| && answers[i] == r.value && r.value.id == id
                                      && forall j :: 0 <= j < i ==> answers[j].id != id
    {
      match FirstIndex(answers, (a: PollAnswer) => a.id, id)
      case None => None
      case Some(i) => Some(answers[i])
    }

    /** `get_answer_count(id)`: `None` when there are no counts or the list
        is empty, otherwise the first count with that id, or `None`. */
    function GetAnswerCount(id: int): (r: Option<PollAnswerCount>)
      reads this
      ensures (counts.None? || counts.value == []) ==> r.None?
      ensures counts.Some? ==> (r.None? <==> forall i :: 0 <= i < |counts.value| ==> counts.value[i].id != id)
      ensures r.Some? ==> counts.Some?
      ensures r.Some? ==>
                exists i :: 0 <= i < |counts.value| && counts.value[i] == r.value && r.value.id == id
                            && forall j :: 0 <= j < i ==> counts.value[j].id != id
    {
      match AnswerCounts()
      case None => None
      case Some(cs) =>
        match FirstIndex(cs, (c: PollAnswerCount) => c.id, id)
        case None => None
        case Some(i) => Some(cs[i])
    }

    /** `end()`: without a message or connection, `RuntimeError` before any
        request and nothing changes. Otherwise one end-poll request for the
        message; on a transport failure nothing else changes, and on success
        the message is replaced by the returned one (same channel, same
        connection), which is also the result. */
    method End(reply: Option<MessagePayload>) returns (r: Result<Message>)
      requires Valid()
      modifies this`message, this`issued
      ensures Valid()
      ensures old(message).None? || old(state).None? ==>
                r.Failure? && r.error.RuntimeError? && message == old(message) && issued == old(issued)
      ensures old(message).Some? && old(state).Some? ==>
                issued == old(issued) + [EndPollRequest(old(message).value.channel.id, old(message).value.id)]
      ensures old(message).Some? && old(state).Some? && reply.None? ==>
                r == Failure(HttpException) && message == old(message)
      ensures old(message).Some? && old(state).Some? && reply.Some? ==>
                message == Some(Message(reply.value.id, old(message).value.channel, reply.value.createdAt, state.value))
                && r == Success(message.value)
    {
      if message.None? || state.None? {
        return Failure(RuntimeError("This method can only be called when a message is present, try using this via Message.poll.end()"));
      }
      var m := message.value;
      issued := issued + [EndPollRequest(m.channel.id, m.id)];
      if reply.None? {
        return Failure(HttpException);
      }
      message := Some(Message(reply.value.id, m.channel, reply.value.createdAt, state.value));
      r := Success(message.value);
    }
  }

  // ---------------------------------------------------------------------
  // Properties relating several operations

  /** A draft has no counts, so looking one up always gives `None`. */
  lemma DraftHasNoCounts(p: Poll, id: int)
    requires p.Valid() && p.message.None?
    ensures p.GetAnswerCount(id).None?
  {
  }

  /** An answer added to a draft has no message, so `get_count()` is `None`
      whatever poll it is asked about. */
  lemma DraftAnswerHasNoCount(text: string, emoji: Option<Emoji>, id: int, host: Poll)
    ensures FromParams(id, text, emoji, None).GetCount(host).None?
    ensures FromParams(id, text, emoji, None).Users(None).Failure?
  {
  }

  /** On a poll whose ids are sequential, `get_answer(k)` finds the k-th
      answer for every k in 1..len, and nothing outside that range. */
  lemma SequentialLookup(p: Poll, k: int)
    requires IdsSequential(p.answers)
    ensures 1 <= k <= |p.answers| ==> p.GetAnswer(k) == Some(p.answers[k - 1])
    ensures !(1 <= k <= |p.answers|) ==> p.GetAnswer(k).None?
  {
    if 1 <= k <= |p.answers| {
      var r := p.GetAnswer(k);
      assert p.answers[k - 1].id == k;
      assert r.Some?;
      var i :| 0 <= i < |p.answers| && p.answers[i] == r.value && r.value.id == k;
      assert i == k - 1;
    }
  }

  /** The poll the platform sends back for a submitted payload, assuming that
      it numbers the answers by position as `get_answer`'s documentation
      says: the flag and the layout present, and no results yet. */
  function Echoed(sent: PollPayload, expiry: int): (d: PollWithExpiry)
    ensures d.question == sent.question && |d.answers| == |sent.answers|
    ensures forall i :: 0 <= i < |d.answers| ==> d.answers[i] == AnswerWithId(i + 1, sent.answers[i].pollMedia)
    ensures d.allowMultiselect == Some(sent.allowMultiselect) && d.layoutType == Some(sent.layoutType)
    ensures d.expiry == expiry && d.results.None?
  {
    PollWithExpiry(sent.question,
                   seq(|sent.answers|, i requires 0 <= i < |sent.answers| => AnswerWithId(i + 1, sent.answers[i].pollMedia)),
                   Some(sent.allowMultiselect), Some(sent.layoutType), expiry, None)
  }

  /** Submitting a poll with `_to_dict()` and hydrating the echoed payload
      with `_from_data` gives back the flag, the layout, the question's text
      and every answer's id and media. Only the question's emoji is lost. */
  method SubmitAndHydrate(p: Poll, m: Message, s: ConnectionState, expiry: int) returns (h: Poll)
    requires IdsSequential(p.answers)
    ensures h.multiselect == p.multiselect && h.layoutType == p.layoutType
    ensures h.questionMedia == PollMedia(p.questionMedia.text, None)
    ensures |h.answers| == |p.answers|
    ensures forall i :: 0 <= i < |h.answers| ==>
              h.answers[i].id == p.answers[i].id && h.answers[i].media == p.answers[i].media
    ensures h.message == Some(m) && h.state == Some(s) && !h.finalized
  {
    h := Poll.FromData(Echoed(p.ToDict(), expiry), m, s);
  }

  /** A client's view: a draft with two answers, its lookups, and `end()`. */
  method DraftUsage(m: MessagePayload)
  {
    var p := new Poll(QuestionText("Lunch?"), 24 * MicrosPerHour);
    var q := p.AddAnswer("Pizza");
    assert q == p;
    q := p.AddAnswer("Soup", Some(Unicode("x")));
    assert p.Length() == 2;
    assert p.answers[0].id == 1 && p.answers[1].id == 2;
    var a := p.GetAnswer(2);
    assert a.Some? && a.value.media.text == "Soup";
    var none := p.GetAnswer(3);
    assert none.None?;
    var c := p.GetAnswerCount(1);
    assert c.None?;
    assert !p.IsFinalized();
    var r := p.End(Some(m));
    assert r.Failure? && p.issued == [];
  }
}
