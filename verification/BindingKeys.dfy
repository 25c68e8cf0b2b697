/**
  The cache keys of the binding flow: eight key families in one string namespace, which is shared with
  keys of other flows that do not begin with `bind:`.
 */
module BindingKeys {
  import opened Prelude
  import opened LockoutGate

  /** The three ceilings: per user and customer, per customer over all users, per user over all customers. */
  datatype GateId = PairGate(user: string, ref: string) | CustomerGate(ref: string) | TotalGate(user: string)

  datatype Key =
    | FailKey(id: GateId)
    | LockKey(id: GateId)
    | InitKey(session: string)
    | BoundKey(user: string)
    | ForeignKey(text: string)   // of the port registry or the idempotency service

  function CeilingOf(id: GateId): Ceiling
  {
    match id
    case PairGate(_, _) => Ceiling(3, 15 * 60, 15 * 60)
    case CustomerGate(_) => Ceiling(10, 60 * 60, 24 * 60 * 60)
    case TotalGate(_) => Ceiling(5, 15 * 60, 15 * 60)
  }

  predicate ColonFreeGate(id: GateId)
  {
    id.CustomerGate? || ':' !in id.user
  }

  /** User ids carry no colon, foreign keys stay outside the flow's namespace. */
  predicate ColonFree(k: Key)
  {
    match k
    case FailKey(id) => ColonFreeGate(id)
    case LockKey(id) => ColonFreeGate(id)
    case InitKey(_) => true
    case BoundKey(u) => ':' !in u
    case ForeignKey(t) => !("bind:" <= t)
  }

  function EncodeGate(id: GateId): string
  {
    match id
    case PairGate(u, r) => "user:" + (u + ":" + r)
    case CustomerGate(r) => "cust:" + r
    case TotalGate(u) => "user_total:" + u
  }

  function Encode(k: Key): string
  {
    match k
    case FailKey(id) => "bind:fail:" + EncodeGate(id)
    case LockKey(id) => "bind:lock:" + EncodeGate(id)
    case InitKey(s) => "bind:init:" + s
    case BoundKey(u) => "bind:" + u
    case ForeignKey(t) => t
  }

  function DecodePair(s: string): Option<GateId>
  {
    match CutFirst(s)
    case None => None
    case Some((u, r)) => Some(PairGate(u, r))
  }

  function DecodeGate(s: string): Option<GateId>
  {
    if "user:" <= s then DecodePair(s[5..])
    else if "cust:" <= s then Some(CustomerGate(s[5..]))
    else if "user_total:" <= s then Some(TotalGate(s[11..]))
    else None
  }

  /** Reads a key back from its text. */
  function Decode(s: string): Option<Key>
  {
    if "bind:fail:" <= s then
      match DecodeGate(s[10..]) case None => None case Some(id) => Some(FailKey(id))
    else if "bind:lock:" <= s then
      match DecodeGate(s[10..]) case None => None case Some(id) => Some(LockKey(id))
    else if "bind:init:" <= s then Some(InitKey(s[10..]))
    else if "bind:" <= s then Some(BoundKey(s[5..]))
    else Some(ForeignKey(s))
  }

  lemma GateRoundTrip(id: GateId)
    requires ColonFreeGate(id)
    ensures DecodeGate(EncodeGate(id)) == Some(id)
  {
    var s := EncodeGate(id);
    match id {
      case PairGate(u, r) =>
        assert s[5..] == u + ":" + r;
        CutFirstJoined(u, r);
      case CustomerGate(r) =>
        assert s[0] == 'c' && s[5..] == r;
      case TotalGate(u) =>
        assert s[0] == 'u' && s[4] == '_' && s[11..] == u;
        assert "user:"[4] == ':';
        assert "cust:"[0] == 'c';
    }
  }

  /** With colon-free user ids every key is recovered from its text. */
  lemma KeyRoundTrip(k: Key)
    requires ColonFree(k)
    ensures Decode(Encode(k)) == Some(k)
  {
    var s := Encode(k);
    match k {
      case FailKey(id) =>
        assert s[10..] == EncodeGate(id);
        GateRoundTrip(id);
      case LockKey(id) =>
        assert s[10..] == EncodeGate(id) && s[5] == 'l' && "bind:fail:"[5] == 'f';
        GateRoundTrip(id);
      case InitKey(session) =>
        assert s[10..] == session && s[5] == 'i';
        assert "bind:fail:"[5] == 'f' && "bind:lock:"[5] == 'l';
      case BoundKey(u) =>
        assert s[5..] == u;
        if |s| > 9 {
          assert s[9] == u[4] && u[4] in u && s[9] != ':';
        }
        assert "bind:fail:"[9] == ':' && "bind:lock:"[9] == ':' && "bind:init:"[9] == ':';
      case ForeignKey(t) =>
        assert "bind:fail:"[..5] == "bind:" && "bind:lock:"[..5] == "bind:" && "bind:init:"[..5] == "bind:";
    }
  }

  /** The eight families are injective, pairwise disjoint, and apart from every foreign key. */
  lemma KeysAreInjective(k1: Key, k2: Key)
    requires ColonFree(k1) && ColonFree(k2) && Encode(k1) == Encode(k2)
    ensures k1 == k2
  {
    KeyRoundTrip(k1);
    KeyRoundTrip(k2);
  }

  /** Colon-free user ids are needed, within one family and across two. */
  lemma ColonsCollide()
    ensures Encode(FailKey(PairGate("a:b", "c"))) == Encode(FailKey(PairGate("a", "b:c")))
    ensures Encode(BoundKey("init:s")) == Encode(InitKey("s"))
  {
  }
}
