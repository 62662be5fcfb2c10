/**
 Event cursors: the "generation:sequence" strings that clients send back in the
 Last-Event-ID header, with the decimal printing and parsing they rest on.
 */
module Decimal {
  import opened Wrappers

  /** One more than the largest unsigned 64-bit value. */
  const UINT64_LIMIT: nat := 0x1_0000_0000_0000_0000

  predicate IsDigit(c: char) {
    '0' <= c <= '9'
  }

  predicate AllDigits(s: string) {
    forall c | c in s :: IsDigit(c)
  }

  function DigitChar(d: nat): char
    requires d < 10
  {
    '0' + d as char
  }

  /** Base-10 printing, without leading zeros. */
  function FormatUint(n: nat): (s: string)
    ensures s != "" && AllDigits(s)
  {
    if n < 10 then [DigitChar(n)] else FormatUint(n / 10) + [DigitChar(n % 10)]
  }

  function DigitValue(c: char): nat
    requires IsDigit(c)
  {
    c as nat - '0' as nat
  }

  function Value(s: string): nat
    requires AllDigits(s)
  {
    if s == "" then 0
    else 10 * Value(s[..|s| - 1]) + DigitValue(s[|s| - 1])
  }

  /** Base-10, 64-bit parsing: digits only (no sign, no underscore), leading zeros allowed, no overflow. */
  function ParseUint(s: string): Option<nat> {
    if s == "" || !AllDigits(s) || Value(s) >= UINT64_LIMIT then None else Some(Value(s))
  }

  lemma {:induction false} FormatThenValue(n: nat)
    ensures Value(FormatUint(n)) == n
  {
    if n < 10 {
      assert FormatUint(n)[..0] == "";
    } else {
      var head := FormatUint(n / 10);
      assert FormatUint(n)[..|head|] == head;
      FormatThenValue(n / 10);
    }
  }
}

module Cursors {
  import opened Decimal

  /** Split around the first `sep`; this contract has exactly one solution. */
  function Cut(s: string, sep: char): (r: (string, string, bool))
    ensures r.2 ==> s == r.0 + [sep] + r.1 && sep !in r.0
    ensures !r.2 ==> sep !in s && r.0 == s && r.1 == ""
  {
    if s == "" then ("", "", false)
    else if s[0] == sep then ("", s[1..], true)
    else
      var (before, after, found) := Cut(s[1..], sep);
      ([s[0]] + before, after, found)
  }

  /** `Cut` finds the separator that a caller put after a text free of it. */
  lemma {:induction false} CutAt(before: string, sep: char, after: string)
    requires sep !in before
    ensures Cut(before + [sep] + after, sep) == (before, after, true)
  {
    var s := before + [sep] + after;
    if before == "" {
      assert s[1..] == after;
    } else {
      assert s[0] == before[0] && before[0] in before;
      assert s[1..] == before[1..] + [sep] + after;
      assert before == [before[0]] + before[1..];
      CutAt(before[1..], sep, after);
    }
  }

  function Cursor(generation: string, id: nat): string {
    generation + ":" + FormatUint(id)
  }

  /** The position a cursor asks to resume after, and whether it cannot be honoured. */
  function AfterCursor(generation: string, nextID: nat, cursor: string): (nat, bool) {
    if cursor == "" then (0, false)
    else
      var (prefix, sequence, found) := Cut(cursor, ':');
      if !found || prefix != generation then (0, true)
      else
        var parsed := ParseUint(sequence);
        if parsed.None? || parsed.value > nextID then (0, true) else (parsed.value, false)
  }

  /** A cursor the broker printed resumes exactly where it was printed. */
  lemma RoundTrip(generation: string, id: nat, nextID: nat)
    requires ':' !in generation
    requires id <= nextID < UINT64_LIMIT
    ensures AfterCursor(generation, nextID, Cursor(generation, id)) == (id, false)
  {
    CutAt(generation, ':', FormatUint(id));
    FormatThenValue(id);
  }

  /** Two positions, in the same or in different generations, never share a cursor. */
  lemma Injective(g1: string, id1: nat, g2: string, id2: nat)
    requires ':' !in g1 && ':' !in g2
    requires Cursor(g1, id1) == Cursor(g2, id2)
    ensures g1 == g2 && id1 == id2
  {
    CutAt(g1, ':', FormatUint(id1));
    CutAt(g2, ':', FormatUint(id2));
    FormatThenValue(id1);
    FormatThenValue(id2);
  }

  /** Exactly the cursors that are honoured, read off the text without the parser. */
  lemma HonouredExactly(generation: string, nextID: nat, cursor: string)
    requires ':' !in generation && nextID < UINT64_LIMIT
    ensures var (after, unreplayable) := AfterCursor(generation, nextID, cursor);
            !unreplayable <==>
            || cursor == ""
            || (&& generation + ":" <= cursor
                && var digits := cursor[|generation| + 1..];
                   digits != "" && AllDigits(digits) && Value(digits) <= nextID && after == Value(digits))
  {
    var (prefix, sequence, found) := Cut(cursor, ':');
    if found && prefix == generation {
      assert cursor == generation + ":" + sequence;
    }
    if generation + ":" <= cursor {
      var digits := cursor[|generation| + 1..];
      assert cursor == generation + ":" + digits;
      CutAt(generation, ':', digits);
    }
  }

  /** A cursor of another generation is never honoured. */
  lemma ForeignCursor(own: string, foreign: string, id: nat, nextID: nat)
    requires ':' !in foreign && own != foreign
    ensures AfterCursor(own, nextID, Cursor(foreign, id)).1
  {
    CutAt(foreign, ':', FormatUint(id));
  }
}
