/** A reaction on a message (discord/reaction.py): its fields as read from a
    payload, identity by emoji alone, and the arguments `users()` hands to the
    reaction paginator. The paginator itself is not part of this model. */
module Reactions {
  import opened Common
  import opened Emojis

  /** The reaction payload fields the constructor reads; a missing key is `None`. */
  datatype ReactionPayload = ReactionPayload(emoji: EmojiPayload, count: Option<int>, me: Option<bool>, userId: Option<nat>)

  datatype Reaction = Reaction(message: Message, emoji: Emoji, count: int, me: Option<bool>, userId: Option<nat>)

  /** `Reaction(message=..., data=..., emoji=...)`. `resolve` stands for the
      connection's `get_reaction_emoji`: it is asked only when no truthy
      emoji is passed in. A missing `count` is 1. */
  function FromPayload(message: Message, data: ReactionPayload, emoji: Option<Emoji>, resolve: EmojiPayload -> Emoji): (r: Reaction)
    ensures r.message == message
    ensures emoji.Some? && Truthy(emoji.value) ==> r.emoji == emoji.value
    ensures !(emoji.Some? && Truthy(emoji.value)) ==> r.emoji == resolve(data.emoji)
    ensures data.count.None? ==> r.count == 1
    ensures data.count.Some? ==> r.count == data.count.value
    ensures r.me == data.me && r.userId == data.userId
  {
    Reaction(message,
             if emoji.Some? && Truthy(emoji.value) then emoji.value else resolve(data.emoji),
             data.count.GetOr(1), data.me, data.userId)
  }

  /** `custom_emoji`: anything but a plain string. It decides how `users()`
      names the emoji: a custom emoji's key is more than its bare name. */
  predicate IsCustomEmoji(r: Reaction)
    ensures IsCustomEmoji(r) <==> EmojiKey(r.emoji) != EmojiName(r.emoji)
  {
    !r.emoji.Unicode?
  }

  /** The right-hand side of `==` / `!=`: a reaction or any other object. */
  datatype Operand = ReactionOperand(reaction: Reaction) | NonReaction

  /** `__eq__`: the other object is a reaction and the emoji are equal. */
  predicate Eq(r: Reaction, other: Operand) {
    other.ReactionOperand? && other.reaction.emoji == r.emoji
  }

  /** `__ne__`: unequal emoji between reactions; always true otherwise. */
  predicate Ne(r: Reaction, other: Operand) {
    if other.ReactionOperand? then other.reaction.emoji != r.emoji else true
  }

  /** `__hash__`: the hash of the emoji; `hashOf` stands for Python's `hash`. */
  function Hash(r: Reaction, hashOf: Emoji -> int): int {
    hashOf(r.emoji)
  }

  /** `!=` is exactly the negation of `==`, and true against a non-reaction. */
  lemma NeIsNotEq(r: Reaction, other: Operand)
    ensures Ne(r, other) <==> !Eq(r, other)
    ensures other.NonReaction? ==> Ne(r, other) && !Eq(r, other)
  {
  }

  /** Equality between reactions is decided by the emoji alone: count, `me`,
      the user and even the message are ignored. */
  lemma EqIgnoresOtherFields(r: Reaction, s: Reaction)
    ensures Eq(r, ReactionOperand(s)) <==> r.emoji == s.emoji
    ensures Eq(r, ReactionOperand(s)) ==>
              forall m, c, me, u :: Eq(Reaction(m, r.emoji, c, me, u), ReactionOperand(s))
  {
  }

  /** Between reactions, `==` is reflexive, symmetric and transitive. */
  lemma EqIsEquivalence(r: Reaction, s: Reaction, t: Reaction)
    ensures Eq(r, ReactionOperand(r))
    ensures Eq(r, ReactionOperand(s)) ==> Eq(s, ReactionOperand(r))
    ensures Eq(r, ReactionOperand(s)) && Eq(s, ReactionOperand(t)) ==> Eq(r, ReactionOperand(t))
  {
  }

  /** Equal reactions hash equally, whatever the emoji hash function is. */
  lemma EqualHashesEqual(r: Reaction, s: Reaction, hashOf: Emoji -> int)
    requires Eq(r, ReactionOperand(s))
    ensures Hash(r, hashOf) == Hash(s, hashOf)
  {
  }

  // ---------------------------------------------------------------------
  // Formatting of ids

  function DigitChar(d: nat): char
    requires d < 10
  {
    "0123456789"[d]
  }

  predicate IsDigit(c: char) {
    '0' <= c <= '9'
  }

  /** Python's `str(n)` for a non-negative integer: decimal, no leading zero. */
  function Decimal(n: nat): (s: string)
    ensures |s| >= 1
    ensures forall i :: 0 <= i < |s| ==> IsDigit(s[i])
    ensures |s| > 1 ==> s[0] != '0'
  {
    if n < 10 then [DigitChar(n)] else Decimal(n / 10) + [DigitChar(n % 10)]
  }

  function DigitValue(c: char): nat
    requires IsDigit(c)
  {
    c as int - '0' as int
  }

  /** The value of a string of decimal digits. */
  function ParseDecimal(s: string): nat
    requires forall i :: 0 <= i < |s| ==> IsDigit(s[i])
  {
    if s == [] then 0
    else ParseDecimal(s[..|s| - 1]) * 10 + DigitValue(s[|s| - 1])
  }

  /** Reading back `str(n)` gives `n`. */
  lemma {:induction false} DecimalRoundTrip(n: nat)
    ensures ParseDecimal(Decimal(n)) == n
  {
    var s := Decimal(n);
    if n >= 10 {
      DecimalRoundTrip(n / 10);
      assert s[..|s| - 1] == Decimal(n / 10);
    }
  }

  /** Different ids print differently. */
  lemma DecimalInjective(m: nat, n: nat)
    requires Decimal(m) == Decimal(n)
    ensures m == n
  {
    DecimalRoundTrip(m);
    DecimalRoundTrip(n);
  }

  // ---------------------------------------------------------------------
  // users()

  /** How `users()` names the emoji: `"name:id"` for anything but a string
      (an absent id prints as `None`), the string itself otherwise. */
  function EmojiKey(e: Emoji): string {
    match e
    case Custom(name, id) => name + ":" + Decimal(id)
    case Partial(p) => p.name + ":" + (if p.id.Some? then Decimal(p.id.value) else "None")
    case Unicode(s) => s
  }

  /** The arguments `users()` hands to the paginator. */
  datatype UsersQuery = UsersQuery(message: Message, emoji: string, limit: int, after: Option<nat>)

  /** `users(limit=None, after=None)`: the reaction's message, the emoji key,
      the reaction's count when no limit is given and the given limit
      otherwise, and the cursor unchanged. */
  function Users(r: Reaction, limit: Option<int> := None, after: Option<nat> := None): (q: UsersQuery)
    ensures q.message == r.message && q.after == after
    ensures limit.None? ==> q.limit == r.count
    ensures limit.Some? ==> q.limit == limit.value
    ensures r.emoji.Custom? ==> q.emoji == r.emoji.name + ":" + Decimal(r.emoji.id)
    ensures r.emoji.Unicode? ==> q.emoji == r.emoji.text
    ensures IsCustomEmoji(r) ==> |q.emoji| > |EmojiName(r.emoji)| && q.emoji[|EmojiName(r.emoji)|] == ':'
    ensures IsCustomEmoji(r) ==> q.emoji[..|EmojiName(r.emoji)|] == EmojiName(r.emoji)
  {
    UsersQuery(r.message, EmojiKey(r.emoji), limit.GetOr(r.count), after)
  }

  /** A custom emoji's key identifies it: two custom emoji whose names have
      no colon get the same `"name:id"` only if name and id are the same. */
  lemma {:induction false} CustomKeyInjective(a: Emoji, b: Emoji)
    requires a.Custom? && b.Custom?
    requires ':' !in a.name && ':' !in b.name
    requires EmojiKey(a) == EmojiKey(b)
    ensures a == b
  {
    var k := EmojiKey(a);
    var da := Decimal(a.id);
    var db := Decimal(b.id);
    assert k == a.name + ":" + da == b.name + ":" + db;
    assert k[|a.name|] == ':' && k[|b.name|] == ':';
    assert forall j :: 0 <= j < |a.name| ==> k[j] == a.name[j];
    assert forall j :: 0 <= j < |b.name| ==> k[j] == b.name[j];
    assert a.name == k[..|a.name|] == b.name;
    assert da == k[|a.name| + 1..] == db;
    DecimalInjective(a.id, b.id);
  }
}
