/** Origin lists and bearer tokens: what configurations are accepted, and what they then grant. */
module Configuration {
  import opened Wrappers
  import opened Cursors

  // ----- Text

  /** White space in Unicode's sense, as Go tests it. */
  predicate IsSpace(c: char) {
    || '\t' <= c <= '\r' || c == ' '
    || c in {'\U{85}', '\U{A0}', '\U{1680}', '\U{2028}', '\U{2029}', '\U{202F}', '\U{205F}', '\U{3000}'}
    || '\U{2000}' <= c <= '\U{200A}'
  }

  function TrimLeft(s: string): (r: string)
    ensures |r| <= |s|
    ensures r != "" ==> !IsSpace(r[0])
  {
    if s != "" && IsSpace(s[0]) then TrimLeft(s[1..]) else s
  }

  function TrimRight(s: string): (r: string)
    ensures r <= s
    ensures r != "" ==> !IsSpace(r[|r| - 1])
  {
    if s != "" && IsSpace(s[|s| - 1]) then TrimRight(s[..|s| - 1]) else s
  }

  function TrimSpace(s: string): string {
    TrimRight(TrimLeft(s))
  }

  predicate Trimmed(s: string) {
    s != "" ==> !IsSpace(s[0]) && !IsSpace(s[|s| - 1])
  }

  lemma {:induction false} TrimLeftKeeps(s: string)
    ensures forall c | c in TrimLeft(s) :: c in s
  {
    if s != "" && IsSpace(s[0]) {
      TrimLeftKeeps(s[1..]);
    }
  }

  lemma TrimSpaceTrims(s: string)
    ensures Trimmed(TrimSpace(s))
    ensures Trimmed(s) ==> TrimSpace(s) == s
    ensures forall c | c in TrimSpace(s) :: c in s
  {
    var l := TrimLeft(s);
    TrimLeftKeeps(s);
    var r := TrimRight(l);
    assert forall c | c in r :: c in l;
    if r != "" {
      assert r[0] == l[0];
    }
  }

  /** White space, by code point. */
  lemma SpacesAre(c: char)
    ensures IsSpace(c) <==>
            c as int in {9, 10, 11, 12, 13, 32, 133, 160, 5760, 8192, 8193, 8194, 8195, 8196, 8197, 8198, 8199, 8200,
                         8201, 8202, 8232, 8233, 8239, 8287, 12288}
  {
  }

  predicate Blank(s: string) {
    forall i | 0 <= i < |s| :: IsSpace(s[i])
  }

  lemma {:induction false} LeftCut(s: string) returns (left: string)
    ensures Blank(left) && s == left + TrimLeft(s)
    decreases |s|
  {
    left := "";
    if s != "" && IsSpace(s[0]) {
      var rest := LeftCut(s[1..]);
      left := [s[0]] + rest;
      assert s == [s[0]] + s[1..] == [s[0]] + (rest + TrimLeft(s[1..]));
    }
  }

  lemma {:induction false} RightCut(s: string) returns (right: string)
    ensures Blank(right) && s == TrimRight(s) + right
    decreases |s|
  {
    right := "";
    if s != "" && IsSpace(s[|s| - 1]) {
      var rest := RightCut(s[..|s| - 1]);
      right := rest + [s[|s| - 1]];
      assert s == s[..|s| - 1] + [s[|s| - 1]] == (TrimRight(s[..|s| - 1]) + rest) + [s[|s| - 1]];
    }
  }

  lemma TrimParts(s: string) returns (left: string, right: string)
    ensures Blank(left) && Blank(right) && s == left + TrimSpace(s) + right
  {
    left := LeftCut(s);
    right := RightCut(TrimLeft(s));
    assert s == left + (TrimSpace(s) + right);
  }

  lemma BlankJoin(left: string, right: string)
    requires Blank(left) && Blank(right)
    ensures Blank(left + right)
  {
  }

  lemma BlankTrimsToNothing(s: string)
    ensures TrimSpace(s) == "" <==> Blank(s)
  {
    TrimSpaceTrims(s);
    if TrimSpace(s) == "" {
      var left, right := TrimParts(s);
      BlankJoin(left, right);
      assert s == left + right;
    } else {
      assert TrimSpace(s)[0] in s;
    }
  }

  /** Trimming takes off white space at both ends, all of it, and nothing else. */
  lemma TrimsSpaceOnly(s: string)
    ensures Trimmed(TrimSpace(s))
    ensures exists left, right :: Blank(left) && Blank(right) && s == left + TrimSpace(s) + right
  {
    TrimSpaceTrims(s);
    var left, right := TrimParts(s);
  }

  function Split(s: string, sep: char): (parts: seq<string>)
    ensures parts != []
    decreases |s|
  {
    var (before, after, found) := Cut(s, sep);
    if found then [before] + Split(after, sep) else [s]
  }

  function Join(parts: seq<string>, sep: char): string {
    if parts == [] then "" else if |parts| == 1 then parts[0] else parts[0] + [sep] + Join(parts[1..], sep)
  }

  lemma {:induction false} SplitJoin(parts: seq<string>, sep: char)
    requires parts != [] && forall i | 0 <= i < |parts| :: sep !in parts[i]
    ensures Split(Join(parts, sep), sep) == parts
    decreases |parts|
  {
    if |parts| == 1 {
      assert sep !in parts[0] && !Cut(parts[0], sep).2;
    } else {
      SplitJoin(parts[1..], sep);
      CutAt(parts[0], sep, Join(parts[1..], sep));
    }
  }

  lemma {:induction false} SplitParts(s: string, sep: char)
    ensures forall i | 0 <= i < |Split(s, sep)| :: sep !in Split(s, sep)[i]
    decreases |s|
  {
    var (before, after, found) := Cut(s, sep);
    if found {
      SplitParts(after, sep);
    }
  }

  /** The parts joined again are the text. */
  lemma {:induction false} JoinSplit(s: string, sep: char)
    ensures Join(Split(s, sep), sep) == s
    decreases |s|
  {
    var (before, after, found) := Cut(s, sep);
    if found {
      JoinSplit(after, sep);
      assert Split(s, sep)[1..] == Split(after, sep);
    }
  }

  // ----- Origins

  /** Whether `url.Parse` yields a bare http or https origin. */
  type OriginTest = string -> bool

  function Origins(parts: seq<string>): seq<string> {
    seq(|parts|, i requires 0 <= i < |parts| => TrimSpace(parts[i]))
  }

  /** The first occurrence of each of the first `n` entries, in order. */
  function FirstsUpTo(entries: seq<string>, n: nat): seq<string>
    requires n <= |entries|
  {
    if n == 0 then []
    else FirstsUpTo(entries, n - 1) + if entries[n - 1] in entries[..n - 1] then [] else [entries[n - 1]]
  }

  function Firsts(entries: seq<string>): seq<string> {
    FirstsUpTo(entries, |entries|)
  }

  predicate AllGood(entries: seq<string>, valid: OriginTest) {
    forall i | 0 <= i < |entries| :: entries[i] != "" && valid(entries[i])
  }

  /** The accepted list, or nothing when the setting is refused. */
  function Accepted(raw: string, valid: OriginTest): Option<seq<string>> {
    if TrimSpace(raw) == "" then Some([])
    else
      var entries := Origins(Split(raw, ','));
      if AllGood(entries, valid) then Some(Firsts(entries)) else None
  }

  function Members(entries: seq<string>): set<string> {
    set x | x in entries
  }

  lemma MembersStep(entries: seq<string>, i: nat)
    requires i < |entries|
    ensures Members(entries[..i + 1]) == Members(entries[..i]) + {entries[i]}
  {
    assert entries[..i + 1] == entries[..i] + [entries[i]];
  }

  /** The loop over the parts. */
  method CollectOrigins(parts: seq<string>, valid: OriginTest) returns (result: Option<seq<string>>)
    ensures result == if AllGood(Origins(parts), valid) then Some(Firsts(Origins(parts))) else None
  {
    ghost var entries := Origins(parts);
    var seen: set<string> := {};
    var origins: seq<string> := [];
    for i := 0 to |parts|
      invariant forall j | 0 <= j < i :: entries[j] != "" && valid(entries[j])
      invariant seen == Members(entries[..i])
      invariant origins == FirstsUpTo(entries, i)
    {
      var origin := TrimSpace(parts[i]);
      assert origin == entries[i];
      if origin == "" || !valid(origin) {
        return None;
      }
      MembersStep(entries, i);
      if origin !in seen {
        seen := seen + {origin};
        origins := origins + [origin];
      }
    }
    assert entries[..|parts|] == entries;
    result := Some(origins);
  }

  method ParseOrigins(raw: string, valid: OriginTest) returns (result: Option<seq<string>>)
    ensures result == Accepted(raw, valid)
  {
    if TrimSpace(raw) == "" {
      return Some([]);
    }
    result := CollectOrigins(Split(raw, ','), valid);
  }

  ghost predicate NoRepeats(entries: seq<string>) {
    forall i, j | 0 <= i < j < |entries| :: entries[i] != entries[j]
  }

  lemma {:induction false} FirstsAreFirst(entries: seq<string>, n: nat)
    requires n <= |entries|
    ensures NoRepeats(FirstsUpTo(entries, n))
    ensures forall x :: x in FirstsUpTo(entries, n) <==> x in entries[..n]
  {
    if n > 0 {
      assert entries[..n] == entries[..n - 1] + [entries[n - 1]];
      FirstsAreFirst(entries, n - 1);
    }
  }

  /** An entry occurs here that did not occur before. */
  ghost predicate IsFirst(entries: seq<string>, p: nat) {
    p < |entries| && entries[p] !in entries[..p]
  }

  function Places(entries: seq<string>, n: nat): (places: seq<nat>)
    requires n <= |entries|
    ensures forall i | 0 <= i < |places| :: places[i] < n
  {
    if n == 0 then []
    else Places(entries, n - 1) + if entries[n - 1] in entries[..n - 1] then [] else [n - 1]
  }

  /** The places are those of first occurrences, all of them, from left to right. */
  lemma {:induction false} PlacesAre(entries: seq<string>, n: nat)
    requires n <= |entries|
    ensures var places := Places(entries, n);
            && (forall p | 0 <= p < n :: p in places <==> IsFirst(entries, p))
            && (forall i, j | 0 <= i < j < |places| :: places[i] < places[j])
  {
    if n > 0 {
      PlacesAre(entries, n - 1);
    }
  }

  /** What is kept are the entries at those places. */
  lemma {:induction false} FirstsAtPlaces(entries: seq<string>, n: nat)
    requires n <= |entries|
    ensures var places, firsts := Places(entries, n), FirstsUpTo(entries, n);
            |firsts| == |places| && forall i | 0 <= i < |places| :: firsts[i] == entries[places[i]]
  {
    if n > 0 {
      FirstsAtPlaces(entries, n - 1);
    }
  }

  /** The accepted entries are the first occurrences, each once, in the order in which they stand. */
  lemma KeepsFirsts(entries: seq<string>)
    ensures exists places: seq<nat> ::
              && (forall i, j | 0 <= i < j < |places| :: places[i] < places[j])
              && (forall p | 0 <= p < |entries| :: p in places <==> IsFirst(entries, p))
              && |Firsts(entries)| == |places|
              && forall i | 0 <= i < |places| :: places[i] < |entries| && Firsts(entries)[i] == entries[places[i]]
  {
    PlacesAre(entries, |entries|);
    FirstsAtPlaces(entries, |entries|);
    var places := Places(entries, |entries|);
    assert |Firsts(entries)| == |places|;
  }

  /** A setting is refused exactly if it is not blank and one of its parts is blank or fails the test. */
  lemma RefusedExactly(raw: string, valid: OriginTest)
    ensures Accepted(raw, valid).None? <==>
            !Blank(raw) && exists part :: part in Split(raw, ',') && (Blank(part) || !valid(TrimSpace(part)))
    ensures Blank(raw) ==> Accepted(raw, valid) == Some([])
  {
    BlankTrimsToNothing(raw);
    var parts := Split(raw, ',');
    forall i | 0 <= i < |parts|
      ensures Origins(parts)[i] == "" <==> Blank(parts[i])
    {
      BlankTrimsToNothing(parts[i]);
    }
    forall part | part in parts && (Blank(part) || !valid(TrimSpace(part)))
      ensures !AllGood(Origins(parts), valid)
    {
      var i :| 0 <= i < |parts| && parts[i] == part;
      assert Origins(parts)[i] == TrimSpace(part);
    }
  }

  lemma {:induction false} FirstsOfDistinct(entries: seq<string>, n: nat)
    requires NoRepeats(entries) && n <= |entries|
    ensures FirstsUpTo(entries, n) == entries[..n]
  {
    if n > 0 {
      FirstsOfDistinct(entries, n - 1);
    }
  }

  lemma AlreadyTrimmed(origins: seq<string>)
    requires forall i | 0 <= i < |origins| :: Trimmed(origins[i])
    ensures Origins(origins) == origins
  {
    forall i | 0 <= i < |origins|
      ensures TrimSpace(origins[i]) == origins[i]
    {
      TrimSpaceTrims(origins[i]);
    }
  }

  lemma {:induction false} TrimRightKeepsHead(s: string)
    requires s != "" && !IsSpace(s[0])
    ensures TrimRight(s) != ""
    decreases |s|
  {
    if IsSpace(s[|s| - 1]) {
      TrimRightKeepsHead(s[..|s| - 1]);
    }
  }

  lemma JoinIsNotBlank(parts: seq<string>, sep: char)
    requires parts != [] && parts[0] != "" && Trimmed(parts[0])
    ensures TrimSpace(Join(parts, sep)) != ""
  {
    var joined := Join(parts, sep);
    assert joined != "" && joined[0] == parts[0][0];
    assert TrimLeft(joined) == joined;
    TrimRightKeepsHead(joined);
  }

  lemma Reparsed(origins: seq<string>, valid: OriginTest)
    requires origins != [] && NoRepeats(origins) && AllGood(origins, valid)
    requires forall i | 0 <= i < |origins| :: Trimmed(origins[i]) && ',' !in origins[i]
    ensures Accepted(Join(origins, ','), valid) == Some(origins)
  {
    var joined := Join(origins, ',');
    JoinIsNotBlank(origins, ',');
    SplitJoin(origins, ',');
    AlreadyTrimmed(origins);
    FirstsOfDistinct(origins, |origins|);
    assert origins[..|origins|] == origins;
  }

  /** An accepted list has no repeats, blanks or untested entries, and joining and parsing it again changes nothing. */
  lemma OriginsSettle(raw: string, valid: OriginTest)
    requires Accepted(raw, valid).Some?
    ensures var origins := Accepted(raw, valid).value;
            && NoRepeats(origins)
            && AllGood(origins, valid)
            && Accepted(Join(origins, ','), valid) == Some(origins)
  {
    var origins := Accepted(raw, valid).value;
    if TrimSpace(raw) != "" {
      var parts := Split(raw, ',');
      var entries := Origins(parts);
      FirstsAreFirst(entries, |entries|);
      assert entries[..|entries|] == entries;
      SplitParts(raw, ',');
      forall i | 0 <= i < |origins|
        ensures Trimmed(origins[i]) && ',' !in origins[i] && origins[i] != "" && valid(origins[i])
      {
        assert origins[i] in entries;
        var j :| 0 <= j < |entries| && entries[j] == origins[i];
        TrimSpaceTrims(parts[j]);
      }
      assert entries[0] in Firsts(entries);
      Reparsed(origins, valid);
    }
  }

  // ----- Tokens

  datatype Tokens = Tokens(bearer: string, read: string, control: string, admin: string)

  predicate HasSpace(s: string) {
    exists i :: 0 <= i < |s| && IsSpace(s[i])
  }

  /** The configured tokens, in whatever order a map yields them. */
  function Settings(t: Tokens): seq<string> {
    [t.bearer, t.read, t.control, t.admin]
  }

  ghost predicate GoodTokens(tokens: seq<string>) {
    && (forall i | 0 <= i < |tokens| :: !HasSpace(tokens[i]))
    && (forall i, j | 0 <= i < j < |tokens| :: tokens[i] != "" ==> tokens[i] != tokens[j])
  }

  method ValidateTokens(tokens: seq<string>) returns (ok: bool)
    ensures ok <==> GoodTokens(tokens)
  {
    var seen: set<string> := {};
    for i := 0 to |tokens|
      invariant GoodTokens(tokens[..i])
      invariant seen == set x | x in tokens[..i] && x != ""
    {
      var token := tokens[i];
      if HasSpace(token) {
        return false;
      }
      assert tokens[..i + 1] == tokens[..i] + [token];
      if token == "" {
        continue;
      }
      if token in seen {
        assert token in tokens[..i];
        return false;
      }
      seen := seen + {token};
    }
    assert tokens[..|tokens|] == tokens;
    ok := true;
  }

  lemma {:induction false} TwiceSomewhere(a: seq<string>, x: string)
    requires multiset(a)[x] >= 2
    ensures exists i, j :: 0 <= i < j < |a| && a[i] == x && a[j] == x
  {
    assert a == [a[0]] + a[1..];
    if a[0] == x {
      assert x in multiset(a[1..]);
      var j :| 0 <= j < |a| - 1 && a[1..][j] == x;
      assert a[0] == x && a[j + 1] == x;
    } else {
      TwiceSomewhere(a[1..], x);
      var i, j :| 0 <= i < j < |a| - 1 && a[1..][i] == x && a[1..][j] == x;
      assert a[i + 1] == x && a[j + 1] == x;
    }
  }

  /** The verdict does not depend on the order in which the settings are visited. */
  lemma AnyVisitingOrder(a: seq<string>, b: seq<string>)
    requires multiset(a) == multiset(b) && GoodTokens(a)
    ensures GoodTokens(b)
  {
    forall i | 0 <= i < |b|
      ensures !HasSpace(b[i])
    {
      assert b[i] in multiset(a);
    }
    forall i, j | 0 <= i < j < |b| && b[i] != ""
      ensures b[i] != b[j]
    {
      if b[i] == b[j] {
        assert b == b[..i] + [b[i]] + b[i + 1..j] + [b[j]] + b[j + 1..];
        assert multiset(a)[b[i]] >= 2;
        TwiceSomewhere(a, b[i]);
      }
    }
  }

  // ----- Scopes

  const PUBLIC: nat := 0
  const READ: nat := 1
  const CONTROL: nat := 2
  const ADMIN: nat := 3

  datatype Candidate = Candidate(token: string, scope: nat)

  function Candidates(t: Tokens): seq<Candidate> {
    [Candidate(t.read, READ), Candidate(t.control, CONTROL), Candidate(t.bearer, ADMIN), Candidate(t.admin, ADMIN)]
  }

  function Resolve(candidates: seq<Candidate>, token: string): Option<nat> {
    if candidates == [] then None
    else if candidates[0].token != "" && candidates[0].token == token then Some(candidates[0].scope)
    else Resolve(candidates[1..], token)
  }

  method ScopeForToken(t: Tokens, token: string) returns (scope: Option<nat>)
    ensures scope == Resolve(Candidates(t), token)
  {
    var candidates := Candidates(t);
    assert candidates[0..] == candidates;
    for i := 0 to |candidates|
      invariant Resolve(candidates[i..], token) == Resolve(candidates, token)
    {
      assert candidates[i..][1..] == candidates[i + 1..];
      if candidates[i].token != "" && candidates[i].token == token {
        return Some(candidates[i].scope);
      }
    }
    scope := None;
  }

  /** No token stands for two scopes. */
  ghost predicate Unambiguous(candidates: seq<Candidate>) {
    forall c, d | c in candidates && d in candidates && c.token == d.token != "" :: c.scope == d.scope
  }

  lemma {:induction false} ResolvesToItsOwn(candidates: seq<Candidate>, token: string, scope: nat)
    requires Unambiguous(candidates)
    ensures Resolve(candidates, token) == Some(scope) <==> token != "" && Candidate(token, scope) in candidates
  {
    if candidates != [] {
      var head, rest := candidates[0], candidates[1..];
      assert candidates == [head] + rest;
      assert forall c | c in rest :: c in candidates;
      if head.token != "" && head.token == token {
        assert Candidate(token, head.scope) == head;
      } else {
        ResolvesToItsOwn(rest, token, scope);
      }
    }
  }

  lemma AcceptedIsUnambiguous(t: Tokens)
    requires GoodTokens(Settings(t))
    ensures Unambiguous(Candidates(t))
  {
    var s := Settings(t);
    assert s[0] == t.bearer && s[1] == t.read && s[2] == t.control && s[3] == t.admin;
  }

  /** For accepted tokens, trying the candidates in any order finds the same scope: the token's own. */
  lemma CandidateOrderIsFree(t: Tokens, order: seq<Candidate>, token: string, scope: nat)
    requires GoodTokens(Settings(t)) && multiset(order) == multiset(Candidates(t))
    ensures Resolve(order, token) == Resolve(Candidates(t), token)
    ensures Resolve(order, token) == Some(scope) <==> token != "" && Candidate(token, scope) in Candidates(t)
  {
    AcceptedIsUnambiguous(t);
    assert forall c :: c in order <==> c in multiset(order);
    assert forall c :: c in Candidates(t) <==> c in multiset(Candidates(t));
    ResolvesToItsOwn(order, token, scope);
    ResolvesToItsOwn(Candidates(t), token, scope);
    if Resolve(order, token).Some? {
      ResolvesToItsOwn(order, token, Resolve(order, token).value);
      ResolvesToItsOwn(Candidates(t), token, Resolve(order, token).value);
    }
    if Resolve(Candidates(t), token).Some? {
      ResolvesToItsOwn(order, token, Resolve(Candidates(t), token).value);
      ResolvesToItsOwn(Candidates(t), token, Resolve(Candidates(t), token).value);
    }
  }

  // ----- Requests

  datatype Verdict = Served | Unauthorized | Forbidden

  function Lower(c: char): char {
    if 'A' <= c <= 'Z' then (c as int + 32) as char else c
  }

  /** Equal to "bearer" but for case; no character outside ASCII folds to one of its letters. */
  predicate FoldsToBearer(scheme: string) {
    |scheme| == 6 && forall i | 0 <= i < 6 :: Lower(scheme[i]) == "bearer"[i]
  }

  predicate HasCredentials(t: Tokens) {
    t.bearer != "" || t.read != "" || t.control != "" || t.admin != ""
  }

  function Authorize(t: Tokens, required: nat, authorization: string): Verdict {
    if required == PUBLIC || !HasCredentials(t) then Served
    else
      var (scheme, provided, found) := Cut(authorization, ' ');
      if !found || !FoldsToBearer(scheme) || provided == "" then Unauthorized
      else
        var scope := Resolve(Candidates(t), provided);
        if scope.None? then Unauthorized
        else if scope.value < required then Forbidden
        else Served
  }

  /** A protected route serves exactly the headers that carry a configured token of enough scope. */
  lemma ServedExactly(t: Tokens, required: nat, header: string)
    requires GoodTokens(Settings(t))
    requires required != PUBLIC && HasCredentials(t)
    ensures Authorize(t, required, header) == Served <==>
            && |header| > 7 && FoldsToBearer(header[..6]) && header[6] == ' '
            && exists scope :: scope >= required && Candidate(header[7..], scope) in Candidates(t)
  {
    var (scheme, provided, found) := Cut(header, ' ');
    AcceptedIsUnambiguous(t);
    if found && FoldsToBearer(scheme) {
      assert header[..6] == scheme && header[6] == ' ' && header[7..] == provided;
    }
    if |header| > 7 && FoldsToBearer(header[..6]) && header[6] == ' ' {
      assert header == header[..6] + [' '] + header[7..];
      assert forall i | 0 <= i < 6 :: "bearer"[i] != ' ';
      CutAt(header[..6], ' ', header[7..]);
      forall scope: nat
        ensures Resolve(Candidates(t), header[7..]) == Some(scope) <==> Candidate(header[7..], scope) in Candidates(t)
      {
        ResolvesToItsOwn(Candidates(t), header[7..], scope);
      }
    }
  }

  lemma {:induction false} ResolvesNone(candidates: seq<Candidate>, token: string)
    ensures Resolve(candidates, token).None? <==>
            forall c | c in candidates :: !(c.token != "" && c.token == token)
  {
    if candidates != [] {
      assert candidates == [candidates[0]] + candidates[1..];
      ResolvesNone(candidates[1..], token);
    }
  }

  /** "bearer" in any mixture of cases. */
  lemma FoldsExactly(scheme: string)
    ensures FoldsToBearer(scheme) <==>
            && |scheme| == 6 && scheme[0] in "bB" && scheme[1] in "eE" && scheme[2] in "aA"
            && scheme[3] in "rR" && scheme[4] in "eE" && scheme[5] in "rR"
  {
    if |scheme| == 6 {
      assert FoldsToBearer(scheme) <==>
             && Lower(scheme[0]) == 'b' && Lower(scheme[1]) == 'e' && Lower(scheme[2]) == 'a'
             && Lower(scheme[3]) == 'r' && Lower(scheme[4]) == 'e' && Lower(scheme[5]) == 'r';
    }
  }

  /** The header carries a configured token. */
  ghost predicate CarriesToken(t: Tokens, header: string) {
    && |header| > 7 && FoldsToBearer(header[..6]) && header[6] == ' '
    && header[7..] in {t.bearer, t.read, t.control, t.admin}
  }

  lemma BearerHasNoSpace(scheme: string)
    requires FoldsToBearer(scheme)
    ensures ' ' !in scheme
  {
    assert forall i | 0 <= i < 6 :: "bearer"[i] != ' ';
  }

  lemma HeaderSplits(header: string)
    requires |header| > 7 && FoldsToBearer(header[..6]) && header[6] == ' '
    ensures Cut(header, ' ') == (header[..6], header[7..], true)
  {
    BearerHasNoSpace(header[..6]);
    assert header == header[..6] + [' '] + header[7..];
    CutAt(header[..6], ' ', header[7..]);
  }

  lemma PartsOfHeader(header: string)
    requires var (scheme, provided, found) := Cut(header, ' '); found && |scheme| == 6 && provided != ""
    ensures |header| > 7 && header[..6] == Cut(header, ' ').0 && header[6] == ' '
  {
  }

  lemma HeaderParts(header: string)
    ensures var (scheme, provided, found) := Cut(header, ' ');
            found && FoldsToBearer(scheme) && provided != "" <==>
            |header| > 7 && FoldsToBearer(header[..6]) && header[6] == ' '
    ensures |header| > 7 && FoldsToBearer(header[..6]) && header[6] == ' ' ==> Cut(header, ' ').1 == header[7..]
  {
    var (scheme, provided, found) := Cut(header, ' ');
    if found && |scheme| == 6 && provided != "" {
      PartsOfHeader(header);
    }
    if |header| > 7 && FoldsToBearer(header[..6]) && header[6] == ' ' {
      HeaderSplits(header);
    }
  }

  /**
   A request is unauthorized exactly if the route is protected, some credential is configured, and the
   header carries none of the configured tokens; public routes and servers without credentials serve
   every header.
   */
  lemma UnauthorizedExactly(t: Tokens, required: nat, header: string)
    ensures Authorize(t, required, header) == Unauthorized <==>
            && required != 0
            && !(t.bearer == "" && t.read == "" && t.control == "" && t.admin == "")
            && !CarriesToken(t, header)
    ensures required == 0 || (t.bearer == "" && t.read == "" && t.control == "" && t.admin == "") ==>
              Authorize(t, required, header) == Served
  {
    HeaderParts(header);
    var candidates := Candidates(t);
    ResolvesNone(candidates, Cut(header, ' ').1);
    assert candidates[0] in candidates && candidates[1] in candidates;
    assert candidates[2] in candidates && candidates[3] in candidates;
  }

  /** Every configured token, sent as a bearer token, is granted its own scope and no other. */
  lemma BearerGetsItsScope(t: Tokens, token: string, scope: nat, required: nat)
    requires GoodTokens(Settings(t)) && token != "" && Candidate(token, scope) in Candidates(t)
    ensures Authorize(t, required, "Bearer " + token) == if scope >= required then Served else Forbidden
  {
    AcceptedIsUnambiguous(t);
    ResolvesToItsOwn(Candidates(t), token, scope);
    assert "Bearer " + token == "Bearer" + [' '] + token;
    CutAt("Bearer", ' ', token);
    assert FoldsToBearer("Bearer");
  }

  /** Spelled out: the read token reads, the control token also controls, the other two may do everything. */
  lemma WhatTokensGrant(t: Tokens)
    requires GoodTokens(Settings(t))
    ensures t.read != "" ==>
              var header := "Bearer " + t.read;
              && Authorize(t, READ, header) == Served
              && Authorize(t, CONTROL, header) == Authorize(t, ADMIN, header) == Forbidden
    ensures t.control != "" ==>
              var header := "Bearer " + t.control;
              && Authorize(t, READ, header) == Authorize(t, CONTROL, header) == Served
              && Authorize(t, ADMIN, header) == Forbidden
    ensures t.bearer != "" ==> Authorize(t, ADMIN, "Bearer " + t.bearer) == Served
    ensures t.admin != "" ==> Authorize(t, ADMIN, "Bearer " + t.admin) == Served
  {
    var c := Candidates(t);
    assert c[0] in c && c[1] in c && c[2] in c && c[3] in c;
    forall required: nat, i | 0 <= i < 4 && c[i].token != ""
      ensures Authorize(t, required, "Bearer " + c[i].token) == if c[i].scope >= required then Served else Forbidden
    {
      BearerGetsItsScope(t, c[i].token, c[i].scope, required);
    }
  }
}
