# Polls, enum decoding and reactions of a Discord client

This project is a Dafny model of three parts of a Python Discord client's object model:

- **The poll aggregate** (`discord/poll.py`). A `Poll` is either a draft that a user builds with `add_answer`, or a poll hydrated from a message payload by `_from_data`. Both serialise to the wire map, look up answers and answer counts by id, and guard `end()` and the answers' `users()` against polls that have no message.
- **Enum decoding** (`discord/enums.py`). This covers the value tables of the enums, with each alias denoting the member it repeats, and `try_enum`, which returns the first declared member with a value or passes an unknown value through. It also covers the audit-log action's `target_type` ranges and its `category` table.
- **Reaction identity** (`discord/reaction.py`). This covers the defaults of a reaction's fields, equality, inequality and hashing by emoji, and the arguments `users()` computes for the paginator.

The modules are:

- `Common` (`common.dfy`): `Option`, the first-match scan, and handles for the host message, channel and connection.
- `Emojis` (`emoji.dfy`): emoji values, their wire map, and Python truthiness.
- `Enums` (`enums.dfy`).
- `Polls` (`poll.dfy`): `Poll` is a class, because `add_answer`, `_from_data` and `end()` update its fields in place. Lookups and serialisation are functions that read it.
- `Reactions` (`reaction.dfy`).

Times are whole microseconds, which is the resolution of Python's `timedelta`. Hours are exact reals. Requests to the platform are not performed:

- `Poll.End` appends the request it issues to the ghost log `issued`.
- The `Users` functions return the request they would issue, or the `RuntimeError` raised before it.

`Polls.SubmitAndHydrate` rests on one assumption about the platform. It assumes the platform numbers a submitted poll's answers 1, 2, ... by their position, which is what the `get_answer` docstring says (`discord/poll.py:564-565`). `Polls.Echoed` builds that reply.

## Model

| member | source | states |
|---|---|---|
| Common.FirstIndex | discord/poll.py:578 | the index of the first element with the key, everything before it has another key, and `None` exactly when no element has the key (the scan `utils.get` performs) |
| Emojis.PartialFromDict | discord/poll.py:108-112 | reading an emoji map as a partial emoji and writing it back gives the same map |
| Enums.TryEnum | discord/enums.py:225-233 | a known result is the first declared member with that value; the raw value comes back unchanged exactly when no member has it |
| Enums.IncreasingIsDistinct | discord/enums.py:138-164 | declared values that strictly increase are pairwise distinct |
| Enums.DecodeOwnValue | discord/enums.py:230-231 | with distinct values, decoding a member's own value gives that member |
| Enums.ChannelTypeDecoding | discord/enums.py:34-39 | 2 decodes to `voice`; 5 and -1 are passed through raw |
| Enums.VerificationLevelRoundTrip | discord/enums.py:76-83 | every verification level decodes back from its own value |
| Enums.VerificationLevelAliases | discord/enums.py:80-83 | `table_flip` and `double_table_flip` are the members `high` and `extreme` themselves, and 3 and 4 decode to them |
| Enums.DefaultAvatarRoundTrip | discord/enums.py:107-113 | every default avatar decodes back from its own value |
| Enums.DefaultAvatarAliases | discord/enums.py:109-110 | `gray` is the member `grey` itself, and 1 decodes to it |
| Enums.StatusRoundTrip | discord/enums.py:96-102 | every status decodes back from its own value |
| Enums.StatusAliases | discord/enums.py:100-101 | `do_not_disturb` is the member `dnd` itself, and `'dnd'` decodes to it |
| Enums.AuditLogActionValuesIncrease | discord/enums.py:138-164 | the audit-log action values increase in declaration order |
| Enums.AuditLogActionRoundTrip | discord/enums.py:138-164 | decoding any audit-log action's value gives back that action |
| Enums.TargetTypeRanges | discord/enums.py:198-218 | both directions for every range: -1 is `all`, other values below 10 are `guild`, each following range of ten has its type, and 80 and above have none |
| Enums.TargetTypeOf | discord/enums.py:199-218 | the `target_type` chain on a value; `TargetTypeRanges` characterises every range in both directions and `TargetTypeFollowsName` ties it to each action's name |
| Enums.AuditLogAction.Category | discord/enums.py:166-196 | the `category` table, defined for every action; `CategoryFollowsName` ties it to each name's suffix and `CategoryNoneExactly` gives the four actions without one |
| Enums.TargetTypeFollowsName | discord/enums.py:138-164 | every declared action has a target type, and it is the family its name announces (`overwrite_*` is a channel; `kick`, `ban`, `unban` and `member_*` are users) |
| Enums.CategoryFollowsName | discord/enums.py:166-196 | the category of every action is create, update or delete exactly as its name ends in `_create`, `_update` or `_delete`, and none otherwise |
| Enums.CategoryNoneExactly | discord/enums.py:176-179 | the category is `None` exactly for `kick`, `member_prune`, `ban` and `unban` |
| Polls.MediaToDict | discord/poll.py:91-106 | `text` is always written; the emoji is written exactly when one is set and truthy, with its name, the id of a full custom emoji, and no id for a string |
| Polls.MediaFromDict | discord/poll.py:108-112 | the text is kept; an emoji map reads as a partial emoji that writes back to the same map, and a missing map reads as the emoji of an empty map |
| Polls.MediaRoundTrip | discord/poll.py:91-112 | reading back a written media keeps the text, a truthy emoji's name and a custom emoji's id; without a truthy emoji it reads back as the emoji of an empty map |
| Polls.ParamsAgreeWithMedia | discord/poll.py:275-285 | the answer media built by `from_params` matches `PollMedia.to_dict` unless a custom emoji's id is 0 |
| Polls.VotersFor | discord/poll.py:154-163 | `RuntimeError` and no request exactly when the message or connection is missing; otherwise one voters request for that message, answer, cursor and limit |
| Polls.PollAnswer.Users | discord/poll.py:122-163 | an answer's voter lookup fails exactly when the answer has no message or connection, raising `RuntimeError`, and otherwise requests the voters of this answer on the message's channel and id, with the given cursor and limit (default 25) |
| Polls.PollAnswer.GetCount | discord/poll.py:309-325 | `None` when the answer has no message; any count found has the answer's id and is one of the poll's counts; with a message and non-empty counts, a count is found exactly when one has the answer's id |
| Polls.PollAnswer.ToDict | discord/poll.py:327-340 | the text and always an emoji map, since every answer has an emoji, and the map reads back as the answer's media |
| Polls.AnswerFromData | discord/poll.py:248-261 | the id is taken verbatim and the connection is present exactly when the message is; a media with an emoji map writes back unchanged, and one without writes back with the empty map's emoji added |
| Polls.FromParams | discord/poll.py:266-289 | an answer with the given id and text and the poll's message; its emoji keeps the name of a truthy given emoji and a custom emoji's id unless it is 0, and is the emoji of an empty map otherwise |
| Polls.PollAnswerCount.Users | discord/poll.py:154-163 | a count always has its message, so its voter lookup always issues the request |
| Polls.PollAnswerCount.Resolved | discord/poll.py:218-221 | any answer found has the count's id and belongs to the poll, and an answer is found exactly when one has that id |
| Polls.CountFromData | discord/poll.py:202-208 | the id, vote flag and count are copied from the payload, and the count's voter lookup never fails |
| Polls.ClampDuration | discord/poll.py:427-430 | a duration over 168 hours becomes exactly seven days, any other is unchanged, so the result never exceeds seven days |
| Polls.DraftedIds | discord/poll.py:403 | after k `add_answer` calls on a fresh poll there are k answers, with ids 1..k in order and the given texts |
| Polls.AppendedKeepsIds | discord/poll.py:552-554 | appending with id `len + 1` keeps the ids sequential |
| Polls.Poll.constructor | discord/poll.py:391-416 | a new poll has the question's media (a string becomes text with no emoji), the duration and its hours, and no answers, message, connection, expiry or counts, and it is not finalized |
| Polls.Poll.FromData | discord/poll.py:418-450 | answers with payload ids, the question's text only, multiselect defaulting to false, layout defaulting to 1, duration `expiry - created_at` clamped and its hours, message, connection and expiry set, and finalized flag and counts only when results are present |
| Polls.Poll.ToDict | discord/poll.py:452-460 | multiselect, the question's media map, the hours stored when the poll was built and the layout are copied, with one `poll_media` per answer in order that reads back as that answer's media |
| Polls.Poll.IsFinalized | discord/poll.py:520-528 | a finalized poll has counts and a message; a poll without a message is never finalized |
| Polls.Poll.Length | discord/poll.py:468-469 | the number of answers: the constructor makes it 0, `AddAnswer` raises it by one, and `DraftedIds` shows it is k after k appends |
| Polls.Poll.AnswerCounts | discord/poll.py:498-505 | the counts, or `None` exactly when there are none or the list is empty |
| Polls.Poll.AddAnswer | discord/poll.py:530-555 | one answer appended with id `len + 1`, earlier answers and all other fields unchanged, sequential ids preserved, and the same poll returned |
| Polls.Poll.GetAnswer | discord/poll.py:557-578 | the first answer with the id, or `None` exactly when no answer has it |
| Polls.Poll.GetAnswerCount | discord/poll.py:580-607 | `None` when counts are absent or empty; otherwise the first count with the id, or `None` exactly when none has it |
| Polls.Poll.End | discord/poll.py:609-640 | `RuntimeError` with no request and no change when the message or connection is missing; otherwise one end-poll request for the message, then either `HTTPException` with the message kept, or the returned message (same channel, poll's connection) stored and returned |
| Polls.DraftHasNoCounts | discord/poll.py:590-607 | a poll without a message never finds an answer count |
| Polls.DraftAnswerHasNoCount | discord/poll.py:313-324 | an answer added to a draft has no count and cannot list its voters |
| Polls.SequentialLookup | discord/poll.py:564-565 | with sequential ids, `get_answer(k)` is the k-th answer for k in 1..len and `None` outside |
| Polls.SubmitAndHydrate | discord/poll.py:418-460 | submitting a poll with `_to_dict` and hydrating the returned payload with `_from_data` gives back its multiselect flag, its layout, its question's text and every answer's id and media, attached to the message and not finalized |
| Reactions.FromPayload | discord/reaction.py:69-74 | the given emoji when it is truthy and the resolved one otherwise; `count` defaults to 1; `me` and `user_id` are copied |
| Reactions.NeIsNotEq | discord/reaction.py:81-87 | `!=` is exactly the negation of `==`, and it is true against anything that is not a reaction |
| Reactions.EqIgnoresOtherFields | discord/reaction.py:81-82 | two reactions are equal exactly when their emoji are equal, whatever their message, count, `me` or user |
| Reactions.EqIsEquivalence | discord/reaction.py:81-82 | equality between reactions is reflexive, symmetric and transitive |
| Reactions.IsCustomEmoji | discord/reaction.py:76-79 | true exactly when the emoji is not a string, which is exactly when `users()` names it by more than its bare name |
| Reactions.Eq | discord/reaction.py:81-82 | the other object is a reaction with an equal emoji; `EqIgnoresOtherFields` and `EqIsEquivalence` state its properties |
| Reactions.Ne | discord/reaction.py:84-87 | unequal emoji between reactions and true otherwise; `NeIsNotEq` shows it is exactly the negation of `Eq` |
| Reactions.Hash | discord/reaction.py:89-90 | the hash of the emoji alone; `EqualHashesEqual` shows equal reactions hash equally |
| Reactions.EqualHashesEqual | discord/reaction.py:89-90 | given structural emoji equality, equal reactions hash equally for any emoji hash |
| Reactions.Decimal | discord/reaction.py:164 | an id prints as a non-empty string of digits with no leading zero |
| Reactions.DecimalRoundTrip | discord/reaction.py:164 | parsing a printed id gives back the id |
| Reactions.Users | discord/reaction.py:118-171 | the limit is the reaction's count when none is given and the given limit otherwise; the emoji is `name:id` for anything but a string and the string itself otherwise; the message and cursor are passed on |
| Reactions.EmojiKey | discord/reaction.py:163-166 | `name:id` for anything but a string and the string itself otherwise; `CustomKeyInjective` shows colon-free custom emoji get distinct keys |
| Reactions.CustomKeyInjective | discord/reaction.py:163-164 | two custom emoji with colon-free names that get the same `name:id` are the same emoji |

## Left out

- Floating point: the hours value is an exact real, and the `> 168` comparison is made on exact microseconds, so float rounding is not modelled.
- ISO-8601 parsing of the expiry: the expiry arrives as an already-parsed integer.
- HTTP and transport: `get_poll_answer_voters`, `end_poll` and `remove_reaction` are not performed. The poll's `end()` logs its request in a ghost list. The voter lookups return the request they would issue. `Reaction.remove()` is not modelled, because it only forwards to the transport.
- User and member resolution in the poll's `users()`, and async and generator semantics.
- The reaction paginator: `discord/iterators.py` is not part of this model, so `Reactions.Users` stops at the arguments it passes on.
- `PollLayoutType` is not defined in `discord/enums.py`, so the layout is an opaque integer tag.
- The emoji classes, `utils.get` and `utils.cached_property` are not part of this model. Emoji are a three-way datatype, emoji equality is structural, and Python's `hash` is a parameter. `answer_counts` is modelled as a plain function of the counts, which never change after hydration.
- Polls.MediaFromDict: an answer payload without an emoji map is read as an empty map. Which partial emoji `PartialEmoji.from_dict({})` builds is not part of this model, so it is the unspecified constant `EmptyMapEmoji`. An answer added without an emoji is therefore sent with that emoji's map.
- Polls.Poll.FromData: the results envelope is modelled as present or absent. An empty (falsy) results map is treated as absent.
- The back-reference from an answer to its poll (`_poll`, `PollAnswer.poll`, `PollAnswerCount.poll`) is not a field. Operations that read the message's poll take that poll as the `host` argument.
- `__repr__` and `__str__` formatting.
- The `duration` attribute is public and may be reassigned after the poll is built. `Polls.Poll.ToDict` then sends the hours stored at construction, as the code does, so the model does not tie the two fields together after construction.
- Polls.Poll.AddAnswer: it accepts an answer even when the poll is attached to a message, because the code at `discord/poll.py:552-555` does not check. The warning on `get_count` (`discord/poll.py:312-315`) only says that answers added this way to a user-built poll have no count.
