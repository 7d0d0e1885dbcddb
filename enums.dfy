/** The enumerations of discord/enums.py, the forward-compatible decoder
    `try_enum`, and the audit-log action's derived `category` and
    `target_type`.

    Every enumeration is a datatype with one constructor per member and a
    constant listing the members in declaration order. Python's `Enum` makes
    a later name with an already used value an alias: the name denotes the
    first member with that value and is not a member of its own. An alias is
    therefore a constant equal to that member. */
module Enums {
  import opened Common

  /** Forward-compatible decoding: a known member, or the raw wire value. */
  datatype Decoded<M, V> = Known(member: M) | Raw(value: V)

  /** `try_enum(cls, val)`: the first declared member whose value is `v`, or
      `v` itself, unchanged, when no member has that value. Never fails. */
  function TryEnum<M, V(==)>(declared: seq<M>, valueOf: M -> V, v: V): (r: Decoded<M, V>)
    ensures r.Known? ==> valueOf(r.member) == v
    ensures r.Known? ==> exists i :: 0 <= i < |declared| && declared[i] == r.member
                                     && forall j :: 0 <= j < i ==> valueOf(declared[j]) != v
    ensures r.Raw? <==> forall i :: 0 <= i < |declared| ==> valueOf(declared[i]) != v
    ensures r.Raw? ==> r.value == v
  {
    match FirstIndex(declared, valueOf, v)
    case None => Raw(v)
    case Some(i) => Known(declared[i])
  }

  /** No two declared names share a value: the enumeration has no aliases. */
  ghost predicate DistinctValues<M, V>(declared: seq<M>, valueOf: M -> V) {
    forall i, j :: 0 <= i < j < |declared| ==> valueOf(declared[i]) != valueOf(declared[j])
  }

  /** Values strictly increase along the declaration order. */
  ghost predicate Increasing<M>(declared: seq<M>, valueOf: M -> int) {
    forall i :: 0 <= i < |declared| - 1 ==> valueOf(declared[i]) < valueOf(declared[i + 1])
  }

  lemma {:induction false} IncreasingIsDistinct<M>(declared: seq<M>, valueOf: M -> int)
    requires Increasing(declared, valueOf)
    ensures DistinctValues(declared, valueOf)
    ensures forall i, j :: 0 <= i < j < |declared| ==> valueOf(declared[i]) < valueOf(declared[j])
  {
    if |declared| > 1 {
      var tail := declared[1..];
      assert Increasing(tail, valueOf) by {
        forall i | 0 <= i < |tail| - 1 ensures valueOf(tail[i]) < valueOf(tail[i + 1]) {
          assert tail[i] == declared[i + 1] && tail[i + 1] == declared[i + 2];
        }
      }
      IncreasingIsDistinct(tail, valueOf);
      forall i, j | 0 <= i < j < |declared| ensures valueOf(declared[i]) < valueOf(declared[j]) {
        if i > 0 {
          assert declared[i] == tail[i - 1] && declared[j] == tail[j - 1];
        } else if j > 1 {
          assert declared[1] == tail[0] && declared[j] == tail[j - 1];
        }
      }
    }
  }

  /** In an enumeration without aliases, decoding a member's value gives
      back that member. */
  lemma DecodeOwnValue<M, V>(declared: seq<M>, valueOf: M -> V, m: M)
    requires m in declared
    requires DistinctValues(declared, valueOf)
    ensures TryEnum(declared, valueOf, valueOf(m)) == Known(m)
  {
    var k :| 0 <= k < |declared| && declared[k] == m;
    var r := TryEnum(declared, valueOf, valueOf(m));
    assert !r.Raw?;
    var i :| 0 <= i < |declared| && declared[i] == r.member
             && forall j :: 0 <= j < i ==> valueOf(declared[j]) != valueOf(m);
    assert !(k < i);
    assert !(i < k);
  }

  // ---------------------------------------------------------------------
  // The value tables

  datatype ChannelType = Text | Private | Voice | Group | Category {
    function Value(): int {
      match this
      case Text => 0
      case Private => 1
      case Voice => 2
      case Group => 3
      case Category => 4
    }
  }
  const ChannelTypes: seq<ChannelType> := [Text, Private, Voice, Group, Category]

  datatype MessageType =
    | Default | RecipientAdd | RecipientRemove | Call
    | ChannelNameChange | ChannelIconChange | PinsAdd | NewMember
  {
    function Value(): int {
      match this
      case Default => 0
      case RecipientAdd => 1
      case RecipientRemove => 2
      case Call => 3
      case ChannelNameChange => 4
      case ChannelIconChange => 5
      case PinsAdd => 6
      case NewMember => 7
    }
  }
  const MessageTypes: seq<MessageType> :=
    [Default, RecipientAdd, RecipientRemove, Call, ChannelNameChange, ChannelIconChange, PinsAdd, NewMember]

  datatype VoiceRegion =
    | UsWest | UsEast | UsSouth | UsCentral | EuWest | EuCentral | Singapore
    | London | Sydney | Amsterdam | Frankfurt | Brazil | Hongkong | Russia
    | VipUsEast | VipUsWest | VipAmsterdam
  {
    function Value(): string {
      match this
      case UsWest => "us-west"
      case UsEast => "us-east"
      case UsSouth => "us-south"
      case UsCentral => "us-central"
      case EuWest => "eu-west"
      case EuCentral => "eu-central"
      case Singapore => "singapore"
      case London => "london"
      case Sydney => "sydney"
      case Amsterdam => "amsterdam"
      case Frankfurt => "frankfurt"
      case Brazil => "brazil"
      case Hongkong => "hongkong"
      case Russia => "russia"
      case VipUsEast => "vip-us-east"
      case VipUsWest => "vip-us-west"
      case VipAmsterdam => "vip-amsterdam"
    }
  }
  const VoiceRegions: seq<VoiceRegion> :=
    [UsWest, UsEast, UsSouth, UsCentral, EuWest, EuCentral, Singapore, London, Sydney,
     Amsterdam, Frankfurt, Brazil, Hongkong, Russia, VipUsEast, VipUsWest, VipAmsterdam]

  datatype VerificationLevel = NoneLevel | Low | Medium | High | Extreme {
    function Value(): int {
      match this
      case NoneLevel => 0
      case Low => 1
      case Medium => 2
      case High => 3
      case Extreme => 4
    }
  }
  /** `table_flip = 3`, an alias of `high`. */
  const TableFlip: VerificationLevel := High
  /** `double_table_flip = 4`, an alias of `extreme`. */
  const DoubleTableFlip: VerificationLevel := Extreme
  const VerificationLevels: seq<VerificationLevel> := [NoneLevel, Low, Medium, High, Extreme]

  datatype ContentFilter = Disabled | NoRole | AllMembers {
    function Value(): int {
      match this
      case Disabled => 0
      case NoRole => 1
      case AllMembers => 2
    }
  }
  const ContentFilters: seq<ContentFilter> := [Disabled, NoRole, AllMembers]

  datatype Status = Online | Offline | Idle | Dnd | Invisible {
    function Value(): string {
      match this
      case Online => "online"
      case Offline => "offline"
      case Idle => "idle"
      case Dnd => "dnd"
      case Invisible => "invisible"
    }
  }
  /** `do_not_disturb = 'dnd'`, an alias of `dnd`. */
  const DoNotDisturb: Status := Dnd
  const Statuses: seq<Status> := [Online, Offline, Idle, Dnd, Invisible]

  datatype DefaultAvatar = Blurple | Grey | Green | Orange | Red {
    function Value(): int {
      match this
      case Blurple => 0
      case Grey => 1
      case Green => 2
      case Orange => 3
      case Red => 4
    }
  }
  /** `gray = 1`, an alias of `grey`. */
  const Gray: DefaultAvatar := Grey
  const DefaultAvatars: seq<DefaultAvatar> := [Blurple, Grey, Green, Orange, Red]

  datatype RelationshipType = Friend | Blocked | IncomingRequest | OutgoingRequest {
    function Value(): int {
      match this
      case Friend => 1
      case Blocked => 2
      case IncomingRequest => 3
      case OutgoingRequest => 4
    }
  }
  const RelationshipTypes: seq<RelationshipType> := [Friend, Blocked, IncomingRequest, OutgoingRequest]

  datatype ActivityType = Playing | Streaming | Listening | Watching {
    function Value(): int {
      match this
      case Playing => 0
      case Streaming => 1
      case Listening => 2
      case Watching => 3
    }
  }
  const ActivityTypes: seq<ActivityType> := [Playing, Streaming, Listening, Watching]

  datatype AuditLogActionCategory = Create | Delete | Update {
    function Value(): int {
      match this
      case Create => 1
      case Delete => 2
      case Update => 3
    }
  }
  const AuditLogActionCategories: seq<AuditLogActionCategory> := [Create, Delete, Update]

  datatype UserFlags = Staff | Partner | Hypesquad {
    function Value(): int {
      match this
      case Staff => 1
      case Partner => 2
      case Hypesquad => 4
    }
  }
  const UserFlagsDeclared: seq<UserFlags> := [Staff, Partner, Hypesquad]

  datatype AuditLogAction =
    | GuildUpdate
    | ChannelCreate | ChannelUpdate | ChannelDelete
    | OverwriteCreate | OverwriteUpdate | OverwriteDelete
    | Kick | MemberPrune | Ban | Unban | MemberUpdate | MemberRoleUpdate
    | RoleCreate | RoleUpdate | RoleDelete
    | InviteCreate | InviteUpdate | InviteDelete
    | WebhookCreate | WebhookUpdate | WebhookDelete
    | EmojiCreate | EmojiUpdate | EmojiDelete
    | MessageDelete
  {
    function Value(): int {
      match this
      case GuildUpdate => 1
      case ChannelCreate => 10
      case ChannelUpdate => 11
      case ChannelDelete => 12
      case OverwriteCreate => 13
      case OverwriteUpdate => 14
      case OverwriteDelete => 15
      case Kick => 20
      case MemberPrune => 21
      case Ban => 22
      case Unban => 23
      case MemberUpdate => 24
      case MemberRoleUpdate => 25
      case RoleCreate => 30
      case RoleUpdate => 31
      case RoleDelete => 32
      case InviteCreate => 40
      case InviteUpdate => 41
      case InviteDelete => 42
      case WebhookCreate => 50
      case WebhookUpdate => 51
      case WebhookDelete => 52
      case EmojiCreate => 60
      case EmojiUpdate => 61
      case EmojiDelete => 62
      case MessageDelete => 72
    }

    /** The member's name as declared. */
    function Name(): string {
      match this
      case GuildUpdate => "guild_update"
      case ChannelCreate => "channel_create"
      case ChannelUpdate => "channel_update"
      case ChannelDelete => "channel_delete"
      case OverwriteCreate => "overwrite_create"
      case OverwriteUpdate => "overwrite_update"
      case OverwriteDelete => "overwrite_delete"
      case Kick => "kick"
      case MemberPrune => "member_prune"
      case Ban => "ban"
      case Unban => "unban"
      case MemberUpdate => "member_update"
      case MemberRoleUpdate => "member_role_update"
      case RoleCreate => "role_create"
      case RoleUpdate => "role_update"
      case RoleDelete => "role_delete"
      case InviteCreate => "invite_create"
      case InviteUpdate => "invite_update"
      case InviteDelete => "invite_delete"
      case WebhookCreate => "webhook_create"
      case WebhookUpdate => "webhook_update"
      case WebhookDelete => "webhook_delete"
      case EmojiCreate => "emoji_create"
      case EmojiUpdate => "emoji_update"
      case EmojiDelete => "emoji_delete"
      case MessageDelete => "message_delete"
    }

    /** The `category` lookup table; kicks, prunes, bans and unbans have none. */
    function Category(): Option<AuditLogActionCategory> {
      match this
      case GuildUpdate => Some(Update)
      case ChannelCreate => Some(Create)
      case ChannelUpdate => Some(Update)
      case ChannelDelete => Some(Delete)
      case OverwriteCreate => Some(Create)
      case OverwriteUpdate => Some(Update)
      case OverwriteDelete => Some(Delete)
      case Kick => None
      case MemberPrune => None
      case Ban => None
      case Unban => None
      case MemberUpdate => Some(Update)
      case MemberRoleUpdate => Some(Update)
      case RoleCreate => Some(Create)
      case RoleUpdate => Some(Update)
      case RoleDelete => Some(Delete)
      case InviteCreate => Some(Create)
      case InviteUpdate => Some(Update)
      case InviteDelete => Some(Delete)
      case WebhookCreate => Some(Create)
      case WebhookUpdate => Some(Update)
      case WebhookDelete => Some(Delete)
      case EmojiCreate => Some(Create)
      case EmojiUpdate => Some(Update)
      case EmojiDelete => Some(Delete)
      case MessageDelete => Some(Delete)
    }

    /** `target_type`: the range of ten the member's value falls in. */
    function TargetType(): Option<string> {
      TargetTypeOf(Value())
    }
  }

  const AuditLogActions: seq<AuditLogAction> :=
    [GuildUpdate, ChannelCreate, ChannelUpdate, ChannelDelete,
     OverwriteCreate, OverwriteUpdate, OverwriteDelete,
     Kick, MemberPrune, Ban, Unban, MemberUpdate, MemberRoleUpdate,
     RoleCreate, RoleUpdate, RoleDelete,
     InviteCreate, InviteUpdate, InviteDelete,
     WebhookCreate, WebhookUpdate, WebhookDelete,
     EmojiCreate, EmojiUpdate, EmojiDelete,
     MessageDelete]

  /** The if/elif chain of `target_type`, over any integer value. Values of
      80 and above fall off the end of the chain and give `None`. */
  function TargetTypeOf(v: int): Option<string> {
    if v == -1 then Some("all")
    else if v < 10 then Some("guild")
    else if v < 20 then Some("channel")
    else if v < 30 then Some("user")
    else if v < 40 then Some("role")
    else if v < 50 then Some("invite")
    else if v < 60 then Some("webhook")
    else if v < 70 then Some("emoji")
    else if v < 80 then Some("message")
    else None
  }

  // ---------------------------------------------------------------------
  // Properties

  /** Decoding an unknown value hands it back; a known one gives its member. */
  lemma ChannelTypeDecoding()
    ensures TryEnum(ChannelTypes, (c: ChannelType) => c.Value(), 2) == Known(Voice)
    ensures TryEnum(ChannelTypes, (c: ChannelType) => c.Value(), 5) == Raw(5)
    ensures TryEnum(ChannelTypes, (c: ChannelType) => c.Value(), -1) == Raw(-1)
  {
    var r := TryEnum(ChannelTypes, (c: ChannelType) => c.Value(), 5);
    assert r.Raw? by {
      forall i | 0 <= i < |ChannelTypes| ensures ChannelTypes[i].Value() != 5 { }
    }
    var s := TryEnum(ChannelTypes, (c: ChannelType) => c.Value(), -1);
    assert s.Raw? by {
      forall i | 0 <= i < |ChannelTypes| ensures ChannelTypes[i].Value() != -1 { }
    }
  }

  /** Every verification level decodes back from its own value. */
  lemma VerificationLevelRoundTrip(l: VerificationLevel)
    ensures TryEnum(VerificationLevels, (x: VerificationLevel) => x.Value(), l.Value()) == Known(l)
  {
    var valueOf := (x: VerificationLevel) => x.Value();
    assert l in VerificationLevels by {
      match l
      case NoneLevel =>
      case Low =>
      case Medium =>
      case High =>
      case Extreme =>
    }
    assert Increasing(VerificationLevels, valueOf);
    IncreasingIsDistinct(VerificationLevels, valueOf);
    DecodeOwnValue(VerificationLevels, valueOf, l);
  }

  /** `table_flip` and `double_table_flip` are `high` and `extreme`
      themselves, so 3 and 4 decode to those members. */
  lemma VerificationLevelAliases()
    ensures TableFlip == High && DoubleTableFlip == Extreme
    ensures TryEnum(VerificationLevels, (x: VerificationLevel) => x.Value(), 3) == Known(TableFlip)
    ensures TryEnum(VerificationLevels, (x: VerificationLevel) => x.Value(), 4) == Known(DoubleTableFlip)
  {
    VerificationLevelRoundTrip(High);
    VerificationLevelRoundTrip(Extreme);
  }

  /** Every default avatar decodes back from its own value. */
  lemma DefaultAvatarRoundTrip(a: DefaultAvatar)
    ensures TryEnum(DefaultAvatars, (x: DefaultAvatar) => x.Value(), a.Value()) == Known(a)
  {
    var valueOf := (x: DefaultAvatar) => x.Value();
    assert a in DefaultAvatars by {
      match a
      case Blurple =>
      case Grey =>
      case Green =>
      case Orange =>
      case Red =>
    }
    assert Increasing(DefaultAvatars, valueOf);
    IncreasingIsDistinct(DefaultAvatars, valueOf);
    DecodeOwnValue(DefaultAvatars, valueOf, a);
  }

  /** `gray` is `grey` itself, so 1 decodes to that member. */
  lemma DefaultAvatarAliases()
    ensures Gray == Grey
    ensures TryEnum(DefaultAvatars, (x: DefaultAvatar) => x.Value(), 1) == Known(Gray)
  {
    DefaultAvatarRoundTrip(Grey);
  }

  /** Every status decodes back from its own value. */
  lemma StatusRoundTrip(st: Status)
    ensures TryEnum(Statuses, (x: Status) => x.Value(), st.Value()) == Known(st)
  {
    var valueOf := (x: Status) => x.Value();
    assert st in Statuses by {
      match st
      case Online =>
      case Offline =>
      case Idle =>
      case Dnd =>
      case Invisible =>
    }
    assert DistinctValues(Statuses, valueOf);
    DecodeOwnValue(Statuses, valueOf, st);
  }

  /** `do_not_disturb` is `dnd` itself, so `'dnd'` decodes to that member. */
  lemma StatusAliases()
    ensures DoNotDisturb == Dnd
    ensures TryEnum(Statuses, (x: Status) => x.Value(), "dnd") == Known(DoNotDisturb)
  {
    StatusRoundTrip(Dnd);
  }

  lemma AuditLogActionValuesIncrease()
    ensures Increasing(AuditLogActions, (x: AuditLogAction) => x.Value())
  {
    forall i | 0 <= i < |AuditLogActions| - 1
      ensures AuditLogActions[i].Value() < AuditLogActions[i + 1].Value()
    {
    }
  }

  /** Decoding the value of any audit-log action gives back that action. */
  lemma AuditLogActionRoundTrip(a: AuditLogAction)
    ensures TryEnum(AuditLogActions, (x: AuditLogAction) => x.Value(), a.Value()) == Known(a)
  {
    var valueOf := (x: AuditLogAction) => x.Value();
    AuditLogActionValuesIncrease();
    IncreasingIsDistinct(AuditLogActions, valueOf);
    assert a in AuditLogActions by {
      match a
      case GuildUpdate =>
      case ChannelCreate =>
      case ChannelUpdate =>
      case ChannelDelete =>
      case OverwriteCreate =>
      case OverwriteUpdate =>
      case OverwriteDelete =>
      case Kick =>
      case MemberPrune =>
      case Ban =>
      case Unban =>
      case MemberUpdate =>
      case MemberRoleUpdate =>
      case RoleCreate =>
      case RoleUpdate =>
      case RoleDelete =>
      case InviteCreate =>
      case InviteUpdate =>
      case InviteDelete =>
      case WebhookCreate =>
      case WebhookUpdate =>
      case WebhookDelete =>
      case EmojiCreate =>
      case EmojiUpdate =>
      case EmojiDelete =>
      case MessageDelete =>
    }
    DecodeOwnValue(AuditLogActions, valueOf, a);
  }

  /** The target-type ranges of ten, in both directions. */
  lemma TargetTypeRanges(v: int)
    ensures TargetTypeOf(v) == Some("all") <==> v == -1
    ensures TargetTypeOf(v) == Some("guild") <==> v < 10 && v != -1
    ensures TargetTypeOf(v) == Some("channel") <==> 10 <= v < 20
    ensures TargetTypeOf(v) == Some("user") <==> 20 <= v < 30
    ensures TargetTypeOf(v) == Some("role") <==> 30 <= v < 40
    ensures TargetTypeOf(v) == Some("invite") <==> 40 <= v < 50
    ensures TargetTypeOf(v) == Some("webhook") <==> 50 <= v < 60
    ensures TargetTypeOf(v) == Some("emoji") <==> 60 <= v < 70
    ensures TargetTypeOf(v) == Some("message") <==> 70 <= v < 80
    ensures TargetTypeOf(v).None? <==> v >= 80
  {
  }

  /** The target type an action's name announces: the word before the
      first underscore, with `overwrite_*` counting as a channel and the
      member actions (`kick`, `ban`, `unban`, `member_*`) as a user. */
  function NameFamily(name: string): Option<string> {
    if "guild_" <= name then Some("guild")
    else if "channel_" <= name || "overwrite_" <= name then Some("channel")
    else if "member_" <= name || name == "kick" || name == "ban" || name == "unban" then Some("user")
    else if "role_" <= name then Some("role")
    else if "invite_" <= name then Some("invite")
    else if "webhook_" <= name then Some("webhook")
    else if "emoji_" <= name then Some("emoji")
    else if "message_" <= name then Some("message")
    else None
  }

  lemma GuildNames(a: AuditLogAction)
    requires a == GuildUpdate
    ensures a.TargetType() == NameFamily(a.Name()) == Some("guild")
  {
    assert a.Name()[0] == 'g';
  }

  lemma ChannelNames(a: AuditLogAction)
    requires a == ChannelCreate || a == ChannelUpdate || a == ChannelDelete
    ensures a.TargetType() == NameFamily(a.Name()) == Some("channel")
  {
    assert a.Name()[0] == 'c';
  }

  lemma OverwriteNames(a: AuditLogAction)
    requires a == OverwriteCreate || a == OverwriteUpdate || a == OverwriteDelete
    ensures a.TargetType() == NameFamily(a.Name()) == Some("channel")
  {
    assert a.Name()[0] == 'o';
  }

  lemma MemberNames(a: AuditLogAction)
    requires a == MemberPrune || a == MemberUpdate || a == MemberRoleUpdate
    ensures a.TargetType() == NameFamily(a.Name()) == Some("user")
  {
    assert a.Name()[0] == 'm';
  }

  lemma SanctionNames(a: AuditLogAction)
    requires a == Kick || a == Ban || a == Unban
    ensures a.TargetType() == NameFamily(a.Name()) == Some("user")
  {
  }

  lemma RoleNames(a: AuditLogAction)
    requires a == RoleCreate || a == RoleUpdate || a == RoleDelete
    ensures a.TargetType() == NameFamily(a.Name()) == Some("role")
  {
    assert a.Name()[0] == 'r';
  }

  lemma InviteNames(a: AuditLogAction)
    requires a == InviteCreate || a == InviteUpdate || a == InviteDelete
    ensures a.TargetType() == NameFamily(a.Name()) == Some("invite")
  {
    assert a.Name()[0] == 'i';
  }

  lemma WebhookNames(a: AuditLogAction)
    requires a == WebhookCreate || a == WebhookUpdate || a == WebhookDelete
    ensures a.TargetType() == NameFamily(a.Name()) == Some("webhook")
  {
    assert a.Name()[0] == 'w';
  }

  lemma EmojiNames(a: AuditLogAction)
    requires a == EmojiCreate || a == EmojiUpdate || a == EmojiDelete
    ensures a.TargetType() == NameFamily(a.Name()) == Some("emoji")
  {
    assert a.Name()[0] == 'e';
  }

  lemma MessageNames(a: AuditLogAction)
    requires a == MessageDelete
    ensures a.TargetType() == NameFamily(a.Name()) == Some("message")
  {
    assert a.Name()[0] == 'm' && a.Name()[2] == 's';
  }

  /** Every declared action's target type agrees with its name family:
      `channel_*` and `overwrite_*` target a channel, `role_*` a role,
      `message_delete` a message, the member actions a user, and so on. */
  lemma TargetTypeFollowsName(a: AuditLogAction)
    ensures a.TargetType().Some?
    ensures a.TargetType() == NameFamily(a.Name())
  {
    match a
    case GuildUpdate => GuildNames(a);
    case ChannelCreate => ChannelNames(a);
    case ChannelUpdate => ChannelNames(a);
    case ChannelDelete => ChannelNames(a);
    case OverwriteCreate => OverwriteNames(a);
    case OverwriteUpdate => OverwriteNames(a);
    case OverwriteDelete => OverwriteNames(a);
    case Kick => SanctionNames(a);
    case MemberPrune => MemberNames(a);
    case Ban => SanctionNames(a);
    case Unban => SanctionNames(a);
    case MemberUpdate => MemberNames(a);
    case MemberRoleUpdate => MemberNames(a);
    case RoleCreate => RoleNames(a);
    case RoleUpdate => RoleNames(a);
    case RoleDelete => RoleNames(a);
    case InviteCreate => InviteNames(a);
    case InviteUpdate => InviteNames(a);
    case InviteDelete => InviteNames(a);
    case WebhookCreate => WebhookNames(a);
    case WebhookUpdate => WebhookNames(a);
    case WebhookDelete => WebhookNames(a);
    case EmojiCreate => EmojiNames(a);
    case EmojiUpdate => EmojiNames(a);
    case EmojiDelete => EmojiNames(a);
    case MessageDelete => MessageNames(a);
  }

  predicate EndsWith(s: string, suffix: string) {
    |suffix| <= |s| && s[|s| - |suffix|..] == suffix
  }

  /** The category an action's name announces by its suffix. */
  function SuffixCategory(name: string): Option<AuditLogActionCategory> {
    if EndsWith(name, "_create") then Some(Create)
    else if EndsWith(name, "_update") then Some(Update)
    else if EndsWith(name, "_delete") then Some(Delete)
    else None
  }

  lemma GuildSuffixes(a: AuditLogAction)
    requires a == GuildUpdate
    ensures a.Category() == SuffixCategory(a.Name())
  {
  }

  lemma ChannelSuffixes(a: AuditLogAction)
    requires a == ChannelCreate || a == ChannelUpdate || a == ChannelDelete
    ensures a.Category() == SuffixCategory(a.Name())
  {
  }

  lemma OverwriteSuffixes(a: AuditLogAction)
    requires a == OverwriteCreate || a == OverwriteUpdate || a == OverwriteDelete
    ensures a.Category() == SuffixCategory(a.Name())
  {
  }

  lemma SanctionSuffixes(a: AuditLogAction)
    requires a == Kick || a == MemberPrune || a == Ban || a == Unban
    ensures a.Category() == SuffixCategory(a.Name())
  {
  }

  lemma MemberSuffixes(a: AuditLogAction)
    requires a == MemberUpdate || a == MemberRoleUpdate
    ensures a.Category() == SuffixCategory(a.Name())
  {
  }

  lemma RoleSuffixes(a: AuditLogAction)
    requires a == RoleCreate || a == RoleUpdate || a == RoleDelete
    ensures a.Category() == SuffixCategory(a.Name())
  {
  }

  lemma InviteSuffixes(a: AuditLogAction)
    requires a == InviteCreate || a == InviteUpdate || a == InviteDelete
    ensures a.Category() == SuffixCategory(a.Name())
  {
  }

  lemma WebhookSuffixes(a: AuditLogAction)
    requires a == WebhookCreate || a == WebhookUpdate || a == WebhookDelete
    ensures a.Category() == SuffixCategory(a.Name())
  {
  }

  lemma EmojiSuffixes(a: AuditLogAction)
    requires a == EmojiCreate || a == EmojiUpdate || a == EmojiDelete
    ensures a.Category() == SuffixCategory(a.Name())
  {
  }

  lemma MessageSuffixes(a: AuditLogAction)
    requires a == MessageDelete
    ensures a.Category() == SuffixCategory(a.Name())
  {
  }

  /** `category` maps every `*_create` to create, every `*_update` to update,
      every `*_delete` to delete, and nothing else to a category. */
  lemma CategoryFollowsName(a: AuditLogAction)
    ensures a.Category() == SuffixCategory(a.Name())
  {
    match a
    case GuildUpdate => GuildSuffixes(a);
    case ChannelCreate => ChannelSuffixes(a);
    case ChannelUpdate => ChannelSuffixes(a);
    case ChannelDelete => ChannelSuffixes(a);
    case OverwriteCreate => OverwriteSuffixes(a);
    case OverwriteUpdate => OverwriteSuffixes(a);
    case OverwriteDelete => OverwriteSuffixes(a);
    case Kick => SanctionSuffixes(a);
    case MemberPrune => SanctionSuffixes(a);
    case Ban => SanctionSuffixes(a);
    case Unban => SanctionSuffixes(a);
    case MemberUpdate => MemberSuffixes(a);
    case MemberRoleUpdate => MemberSuffixes(a);
    case RoleCreate => RoleSuffixes(a);
    case RoleUpdate => RoleSuffixes(a);
    case RoleDelete => RoleSuffixes(a);
    case InviteCreate => InviteSuffixes(a);
    case InviteUpdate => InviteSuffixes(a);
    case InviteDelete => InviteSuffixes(a);
    case WebhookCreate => WebhookSuffixes(a);
    case WebhookUpdate => WebhookSuffixes(a);
    case WebhookDelete => WebhookSuffixes(a);
    case EmojiCreate => EmojiSuffixes(a);
    case EmojiUpdate => EmojiSuffixes(a);
    case EmojiDelete => EmojiSuffixes(a);
    case MessageDelete => MessageSuffixes(a);
  }

  /** `category` is `None` exactly for kick, member_prune, ban and unban. */
  lemma CategoryNoneExactly(a: AuditLogAction)
    ensures a.Category().None? <==> a == Kick || a == MemberPrune || a == Ban || a == Unban
  {
  }
}
