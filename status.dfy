/**
 * The status document served at /status: `getStatusJSON` builds a fixed-shape
 * JSON object (section 4 of RFC 8259) with the members "slot1", "free" and
 * "total" from the one occupancy flag, and the dashboard reads those three
 * members back. `ParseStatus` is that reader for the fixed shape.
 */
module Status {
  import opened Wrappers
  import opened Decimal

  /** The sketch monitors one slot; "total" is always written as 1. */
  const TotalSlots: int := 1

  /** The value of the "slot1" member: 1 when occupied, 0 when free. */
  function Slot1Field(occupied: bool): (v: int)
    ensures 0 <= v <= 1 && (v == 1 <==> occupied)
  {
    if occupied then 1 else 0
  }

  /** `freeSlots`: the number of free slots. */
  function FreeSlots(occupied: bool): (free: int)
    ensures free + Slot1Field(occupied) == TotalSlots
    ensures free == 0 <==> occupied
  {
    if occupied then 0 else 1
  }

  /** The three members the dashboard reads from a status document. */
  datatype Snapshot = Snapshot(slot1: int, free: int, total: int)

  /** The text after `prefix` when `s` starts with it. */
  function Expect(prefix: string, s: string): (r: Option<string>)
    ensures r.Some? <==> prefix <= s
    ensures r.Some? ==> s == prefix + r.value
  {
    if prefix <= s then Some(s[|prefix|..]) else None
  }

  /** Reads `key` followed by a JSON integer at the front of `s`. */
  function ReadMember(key: string, s: string): (r: Option<(int, string)>)
    ensures r.Some? ==> key <= s
  {
    match Expect(key, s)
    case None => None
    case Some(t) => ReadInt(t)
  }

  /** Reads a document of the shape `{"slot1":<int>,"free":<int>,"total":<int>}`. */
  function ParseStatus(json: string): Option<Snapshot> {
    match ReadMember("{\"slot1\":", json)
    case None => None
    case Some((slot1, s1)) =>
      match ReadMember(",\"free\":", s1)
      case None => None
      case Some((free, s2)) =>
        match ReadMember(",\"total\":", s2)
        case None => None
        case Some((total, s3)) =>
          if s3 == "}" then Some(Snapshot(slot1, free, total)) else None
  }

  lemma ExpectPrefix(prefix: string, rest: string)
    ensures Expect(prefix, prefix + rest) == Some(rest)
  {
    assert prefix <= prefix + rest;
    assert (prefix + rest)[|prefix|..] == rest;
  }

  lemma {:induction false} ReadMemberOf(key: string, n: int, rest: string)
    requires rest == [] || !IsDigit(rest[0])
    ensures ReadMember(key, key + (IntToString(n) + rest)) == Some((n, rest))
  {
    ExpectPrefix(key, IntToString(n) + rest);
    ReadIntString(n, rest);
  }

  /** The text of a status document whose members hold `a`, `b` and `c`. */
  function StatusText(a: int, b: int, c: int): string {
    "{\"slot1\":" + (IntToString(a) + (",\"free\":" + (IntToString(b) + (",\"total\":" + (IntToString(c) + "}")))))
  }

  /** Single-digit values render as that one digit. */
  lemma DigitString(d: int)
    requires 0 <= d < 10
    ensures IntToString(d) == [DigitChar(d)]
  {
  }

  /**
   * `getStatusJSON`: the "slot1", "free" and "total" members, in that order,
   * written from the occupancy flag alone.
   */
  function StatusJSON(occupied: bool): (json: string)
    ensures occupied ==> json == "{\"slot1\":1,\"free\":0,\"total\":1}"
    ensures !occupied ==> json == "{\"slot1\":0,\"free\":1,\"total\":1}"
  {
    DigitString(0);
    DigitString(1);
    StatusText(Slot1Field(occupied), FreeSlots(occupied), TotalSlots)
  }

  /** Reading a status document gives back the three members written into it. */
  lemma {:induction false} ParseStatusText(a: int, b: int, c: int)
    ensures ParseStatus(StatusText(a, b, c)) == Some(Snapshot(a, b, c))
  {
    var tail2 := ",\"total\":" + (IntToString(c) + "}");
    var tail1 := ",\"free\":" + (IntToString(b) + tail2);
    ReadMemberOf(",\"total\":", c, "}");
    ReadMemberOf(",\"free\":", b, tail2);
    ReadMemberOf("{\"slot1\":", a, tail1);
  }

  /**
   * Every document `getStatusJSON` writes reads back as the occupancy it was
   * built from, with free + slot1 == total and total == 1.
   */
  lemma StatusRoundTrip(occupied: bool)
    ensures ParseStatus(StatusJSON(occupied))
         == Some(Snapshot(Slot1Field(occupied), FreeSlots(occupied), TotalSlots))
  {
    ParseStatusText(Slot1Field(occupied), FreeSlots(occupied), TotalSlots);
  }

  /** The status document tells the two occupancy states apart. */
  lemma {:induction false} StatusJSONDetermines(a: bool, b: bool)
    requires StatusJSON(a) == StatusJSON(b)
    ensures a == b
  {
    StatusRoundTrip(a);
    StatusRoundTrip(b);
  }
}
