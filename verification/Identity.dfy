/**
 Which domain an identifier names. Identifiers are byte strings; the UUID test walks them rune
 by rune, as Go's range loop does, yet accepts exactly the text form of a UUID.
 */
module Identity {
  import opened Wrappers
  import opened Errors

  newtype byte = x: int | 0 <= x < 256

  /** A rune and the bytes it takes; bytes that are not valid UTF-8 read as U+FFFD, one at a time. */
  datatype Rune = Rune(value: int, width: nat)

  const INVALID := Rune(0xFFFD, 1)

  predicate IsContinuation(s: seq<byte>, i: nat) {
    i < |s| && 0x80 <= s[i] < 0xC0
  }

  function Low(s: seq<byte>, i: nat): int
    requires i < |s|
  {
    (s[i] as int) % 0x40
  }

  /** UTF-8 decoding of one rune (RFC 3629, section 4). */
  function DecodeRune(s: seq<byte>, i: nat): (r: Rune)
    requires i < |s|
    ensures 1 <= r.width <= 4 && i + r.width <= |s|
    ensures if s[i] < 0x80 then r == Rune(s[i] as int, 1) else r.value >= 0x80
  {
    var b := s[i] as int;
    if b < 0x80 then Rune(b, 1)
    else if 0xC2 <= b < 0xE0 then
      if IsContinuation(s, i + 1) then Rune((b - 0xC0) * 0x40 + Low(s, i + 1), 2) else INVALID
    else if 0xE0 <= b < 0xF0 then
      if IsContinuation(s, i + 1) && IsContinuation(s, i + 2)
         && (b == 0xE0 ==> s[i + 1] >= 0xA0) && (b == 0xED ==> s[i + 1] < 0xA0)
      then Rune((b - 0xE0) * 0x1000 + Low(s, i + 1) * 0x40 + Low(s, i + 2), 3) else INVALID
    else if 0xF0 <= b < 0xF5 then
      if IsContinuation(s, i + 1) && IsContinuation(s, i + 2) && IsContinuation(s, i + 3)
         && (b == 0xF0 ==> s[i + 1] >= 0x90) && (b == 0xF4 ==> s[i + 1] < 0x90)
      then Rune((b - 0xF0) * 0x40000 + Low(s, i + 1) * 0x1000 + Low(s, i + 2) * 0x40 + Low(s, i + 3), 4) else INVALID
    else INVALID
  }

  const DASH := '-' as int

  predicate IsHexDigit(c: int) {
    || '0' as int <= c <= '9' as int
    || 'a' as int <= c <= 'f' as int
    || 'A' as int <= c <= 'F' as int
  }

  predicate AllHex(s: seq<byte>) {
    forall i | 0 <= i < |s| :: IsHexDigit(s[i] as int)
  }

  ghost predicate Groups(a: seq<byte>, b: seq<byte>, c: seq<byte>, d: seq<byte>, e: seq<byte>) {
    && |a| == 8 && |b| == |c| == |d| == 4 && |e| == 12
    && AllHex(a) && AllHex(b) && AllHex(c) && AllHex(d) && AllHex(e)
  }

  /** The five groups with their dashes. */
  function Dashed(a: seq<byte>, b: seq<byte>, c: seq<byte>, d: seq<byte>, e: seq<byte>): seq<byte> {
    var dash := [DASH as byte];
    a + dash + b + dash + c + dash + d + dash + e
  }

  /** The text form of RFC 9562, section 4: hexadecimal groups of 8, 4, 4, 4 and 12 digits joined by dashes. */
  ghost predicate IsUuidText(s: seq<byte>) {
    exists a, b, c, d, e :: s == Dashed(a, b, c, d, e) && Groups(a, b, c, d, e)
  }

  predicate FitsAt(index: nat, c: int) {
    if index in {8, 13, 18, 23} then c == DASH else IsHexDigit(c)
  }

  ghost predicate FitsAll(s: seq<byte>) {
    |s| == 36 && forall i | 0 <= i < 36 :: FitsAt(i, s[i] as int)
  }

  lemma GroupsOf(s: seq<byte>)
    requires FitsAll(s)
    ensures IsUuidText(s)
  {
    var a, b, c, d, e := s[..8], s[9..13], s[14..18], s[19..23], s[24..];
    assert s == Dashed(a, b, c, d, e);
    assert Groups(a, b, c, d, e);
  }

  lemma PositionsOf(s: seq<byte>, a: seq<byte>, b: seq<byte>, c: seq<byte>, d: seq<byte>, e: seq<byte>)
    requires s == Dashed(a, b, c, d, e) && Groups(a, b, c, d, e)
    ensures FitsAll(s)
  {
    forall i | 0 <= i < 36
      ensures FitsAt(i, s[i] as int)
    {
      assert s[i] ==
             if i < 8 then a[i] else if i == 8 then DASH as byte
             else if i < 13 then b[i - 9] else if i == 13 then DASH as byte
             else if i < 18 then c[i - 14] else if i == 18 then DASH as byte
             else if i < 23 then d[i - 19] else if i == 23 then DASH as byte
             else e[i - 24];
    }
  }

  lemma UuidTextByPosition(s: seq<byte>)
    ensures IsUuidText(s) <==> FitsAll(s)
  {
    if FitsAll(s) {
      GroupsOf(s);
    }
    if IsUuidText(s) {
      var a, b, c, d, e :| s == Dashed(a, b, c, d, e) && Groups(a, b, c, d, e);
      PositionsOf(s, a, b, c, d, e);
    }
  }

  /** Byte `i` is a dash at the four places for one, and a hexadecimal digit of either case elsewhere. */
  ghost predicate HasUuidChar(s: seq<byte>, i: nat)
    requires i < |s|
  {
    var c := s[i] as char;
    if i == 8 || i == 13 || i == 18 || i == 23 then c == '-'
    else c in "0123456789abcdefABCDEF"
  }

  lemma HexDigitChars(b: byte)
    ensures IsHexDigit(b as int) <==> b as char in "0123456789abcdefABCDEF"
  {
    var digits := "0123456789abcdefABCDEF";
    if IsHexDigit(b as int) {
      var c := b as int;
      var k := if c <= 57 then c - 48 else if c >= 97 then c - 97 + 10 else c - 65 + 16;
      assert digits[k] as int == c;
    }
  }

  /** The text form, with its characters written out. */
  lemma UuidChars(s: seq<byte>)
    ensures IsUuidText(s) <==> |s| == 36 && forall i | 0 <= i < 36 :: HasUuidChar(s, i)
  {
    UuidTextByPosition(s);
    if |s| == 36 {
      forall i | 0 <= i < 36
        ensures FitsAt(i, s[i] as int) <==> HasUuidChar(s, i)
      {
        HexDigitChars(s[i]);
      }
    }
  }

  /** The rune loop: the index is the byte at which the rune starts. */
  method IsCanonicalUUID(value: seq<byte>) returns (ok: bool)
    ensures ok <==> IsUuidText(value)
    ensures ok <==> |value| == 36 && forall i | 0 <= i < 36 :: HasUuidChar(value, i)
  {
    UuidTextByPosition(value);
    UuidChars(value);
    if |value| != 36 {
      return false;
    }
    var index := 0;
    while index < |value|
      invariant 0 <= index <= |value|
      invariant forall i | 0 <= i < index :: FitsAt(i, value[i] as int)
      decreases |value| - index
    {
      var rune := DecodeRune(value, index);
      match index {
        case 8 | 13 | 18 | 23 =>
          if rune.value != DASH {
            return false;
          }
        case _ =>
          if !IsHexDigit(rune.value) {
            return false;
          }
      }
      index := index + rune.width;
    }
    ok := true;
  }

  // ----- Looking a domain up

  datatype Found<+D> = Domain(domain: D) | Missing(code: Code)

  datatype Lookup<+D> = Resolved(domain: D) | Unresolved(error: Error)

  /** Names first; UUIDs only for what looks like one and is no name. `byName` and `byUUID` are the two answers. */
  ghost function LookupDomain<D>(identifier: seq<byte>, byName: Found<D>, byUUID: Found<D>): Lookup<D> {
    if byName.Domain? then Resolved(byName.domain)
    else if byName.code != NoDomain then Unresolved(Wrapped(LookingUp, Libvirt(byName.code)))
    else if !IsUuidText(identifier) then Unresolved(Wrapped(LookingUp, Known(NotFound)))
    else if byUUID.Domain? then Resolved(byUUID.domain)
    else if byUUID.code != NoDomain then Unresolved(Wrapped(LookingUp, Libvirt(byUUID.code)))
    else Unresolved(Wrapped(LookingUp, Known(NotFound)))
  }

  /** The first lookup that fails with anything but "no such domain" among those that are made. */
  ghost function Breakdown<D>(identifier: seq<byte>, byName: Found<D>, byUUID: Found<D>): Option<Code> {
    if byName.Missing? && byName.code != NoDomain then Some(byName.code)
    else if byName.Missing? && IsUuidText(identifier) && byUUID.Missing? && byUUID.code != NoDomain
      then Some(byUUID.code)
    else None
  }

  /** For every pair of answers: which domain is found, and otherwise which status the request gets. */
  lemma LookupStatus<D>(identifier: seq<byte>, byName: Found<D>, byUUID: Found<D>)
    ensures var x := LookupDomain(identifier, byName, byUUID);
            && (x.Resolved? <==>
                  byName.Domain? || (byName == Missing(NoDomain) && IsUuidText(identifier) && byUUID.Domain?))
            && (x.Resolved? ==> x.domain == if byName.Domain? then byName.domain else byUUID.domain)
            && (x.Unresolved? ==>
                  var broken := Breakdown(identifier, byName, byUUID);
                  && Status(x.error) == (if broken.None? then 404 else 503)
                  && (broken.Some? ==> Root(x.error) == Libvirt(broken.value)))
  {
    var x := LookupDomain(identifier, byName, byUUID);
    if x.Unresolved? {
      StatusIsOfRoot(x.error);
      assert Root(x.error) == Root(x.error.cause);
    }
  }

  /** The domains there are, and the names they have; a domain is told by its UUID. */
  datatype Host = Host(names: map<seq<byte>, nat>, domains: set<nat>)

  /** Each domain's UUID, in the one spelling that libvirt prints. */
  type Registry = map<nat, string>

  ghost predicate Unique(uuids: Registry) {
    forall d, d' | d in uuids && d' in uuids && uuids[d] == uuids[d'] :: d == d'
  }

  ghost predicate Consistent(h: Host, uuids: Registry) {
    && (forall name | name in h.names :: h.names[name] in h.domains)
    && h.domains <= uuids.Keys
  }

  function LowerCase(c: byte): char {
    if 'A' as int <= c as int <= 'F' as int then (c as int + 32) as char else (c as int) as char
  }

  /** The spelling libvirt prints for the UUID that a text spells. */
  function Printed(s: seq<byte>): string {
    seq(|s|, i requires 0 <= i < |s| => LowerCase(s[i]))
  }

  function HexValue(c: byte): int {
    if '0' as int <= c as int <= '9' as int then c as int - '0' as int
    else if 'a' as int <= c as int <= 'f' as int then c as int - 'a' as int + 10
    else if 'A' as int <= c as int <= 'F' as int then c as int - 'A' as int + 10
    else -1
  }

  /** Two texts are printed alike exactly when they spell the same number. */
  lemma PrintedByValue(a: seq<byte>, b: seq<byte>)
    requires IsUuidText(a) && IsUuidText(b)
    ensures Printed(a) == Printed(b) <==> forall i | 0 <= i < 36 :: HexValue(a[i]) == HexValue(b[i])
  {
    UuidTextByPosition(a);
    UuidTextByPosition(b);
    forall i | 0 <= i < 36
      ensures Printed(a)[i] == Printed(b)[i] <==> HexValue(a[i]) == HexValue(b[i])
    {
      assert FitsAt(i, a[i] as int) && FitsAt(i, b[i] as int);
    }
  }

  /** What libvirt answers, `fault` being how the lookup fails of itself. */
  function NameAnswer(h: Host, fault: Option<Code>, a: seq<byte>): Found<nat> {
    if fault.Some? then Missing(fault.value)
    else if a in h.names then Domain(h.names[a]) else Missing(NoDomain)
  }

  ghost function UuidAnswer(h: Host, uuids: Registry, fault: Option<Code>, a: seq<byte>): Found<nat>
    requires Consistent(h, uuids)
  {
    if fault.Some? then Missing(fault.value)
    else if d :| d in h.domains && uuids[d] == Printed(a) then Domain(d) else Missing(NoDomain)
  }

  /** The domain an identifier stands for: the one of that name, or else the one whose UUID it spells. */
  ghost predicate Denotes(h: Host, uuids: Registry, a: seq<byte>, d: nat) {
    if a in h.names then d == h.names[a]
    else IsUuidText(a) && d in h.domains && d in uuids && uuids[d] == Printed(a)
  }

  /** A lookup that fails of itself fails otherwise than with "no such domain". */
  predicate Honest(fault: Option<Code>) {
    fault != Some(NoDomain)
  }

  /**
   What is found is what the identifier stands for, and nothing else stands there; without a
   breakdown, it is found if it exists, and 404 says that it does not.
   */
  lemma ResolvesExactly(h: Host, uuids: Registry, a: seq<byte>, nameFault: Option<Code>, uuidFault: Option<Code>)
    requires Unique(uuids) && Consistent(h, uuids) && Honest(nameFault) && Honest(uuidFault)
    ensures var byName, byUUID := NameAnswer(h, nameFault, a), UuidAnswer(h, uuids, uuidFault, a);
            var x := LookupDomain(a, byName, byUUID);
            && (x.Resolved? ==> forall d :: Denotes(h, uuids, a, d) <==> d == x.domain)
            && (x.Unresolved? ==>
                  && (Status(x.error) == 404 <==> Breakdown(a, byName, byUUID).None?)
                  && (Status(x.error) == 404 ==> forall d :: !Denotes(h, uuids, a, d))
                  && (Status(x.error) != 404 ==> Status(x.error) == 503 && (nameFault.Some? || uuidFault.Some?)))
  {
    var byName, byUUID := NameAnswer(h, nameFault, a), UuidAnswer(h, uuids, uuidFault, a);
    LookupStatus(a, byName, byUUID);
  }
}
