/** Emoji as polls and reactions see them. The emoji classes themselves are
    not part of this model: only the name, the snowflake id and whether the
    value is a plain string matter to the code modelled here. */
module Emojis {
  import opened Common

  /** A partial emoji: a name and, for a custom one, its id. */
  datatype PartialEmoji = PartialEmoji(name: string, id: Option<nat>)

  /** What a poll media or a reaction may carry: a fully resolved custom
      emoji (`Emoji`), a `PartialEmoji`, or a unicode emoji given as a string. */
  datatype Emoji =
    | Custom(name: string, id: nat)
    | Partial(partial: PartialEmoji)
    | Unicode(text: string)

  /** The `{name, id?}` map an emoji becomes on the wire. */
  datatype EmojiPayload = EmojiPayload(name: string, id: Option<nat>)

  /** Python truthiness of an emoji value: an emoji object is always true, a
      string is true unless it is empty. */
  predicate Truthy(e: Emoji) {
    !(e.Unicode? && e.text == "")
  }

  /** The displayed name: the emoji's name, or the string itself. */
  function EmojiName(e: Emoji): string {
    match e
    case Custom(name, _) => name
    case Partial(p) => p.name
    case Unicode(s) => s
  }

  /** `PartialEmoji.to_dict`: the name, and the id when there is one. */
  function PartialToDict(p: PartialEmoji): EmojiPayload {
    EmojiPayload(p.name, p.id)
  }

  /** `PartialEmoji.from_dict` on a non-empty emoji map. */
  function PartialFromDict(d: EmojiPayload): (p: PartialEmoji)
    ensures PartialToDict(p) == d
  {
    PartialEmoji(d.name, d.id)
  }
}
