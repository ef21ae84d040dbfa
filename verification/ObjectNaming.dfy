/** The canonical path an object's name is derived from: bytes, a user placeholder, encoded segments. */
module ObjectNaming {
  type Byte = x: int | 0 <= x < 256
  type Bytes = seq<Byte>

  const SLASH: Byte := 47
  const PERCENT: Byte := 37
  const DOT: Byte := 46
  const UNDERSCORE: Byte := 95
  // The four letters between the underscores of "__USER__".
  const USER: Bytes := [85, 83, 69, 82]
  const PLACEHOLDER: Bytes := [UNDERSCORE, UNDERSCORE] + USER + [UNDERSCORE, UNDERSCORE]

  predicate Alnum(c: Byte) { 97 <= c <= 122 || 65 <= c <= 90 || 48 <= c <= 57 }

  // --- segments --------------------------------------------------------------------------------

  // The unreserved characters of section 2.3 of RFC 3986.
  predicate Unreserved(c: Byte) { Alnum(c) || c == 46 || c == 95 || c == 126 || c == 45 }

  function HexDigit(n: int): Byte
    requires 0 <= n < 16
  {
    if n < 10 then 48 + n else 55 + n
  }

  function HexValue(c: Byte): int { if c <= 57 then c - 48 else c - 55 }

  function EncodedByte(c: Byte): Bytes {
    if Unreserved(c) then [c] else [PERCENT, HexDigit(c / 16), HexDigit(c % 16)]
  }

  function Encoded(s: Bytes): Bytes
    decreases |s|
  {
    if s == [] then [] else EncodedByte(s[0]) + Encoded(s[1..])
  }

  // Percent-decoding, section 2.1 of RFC 3986.
  function Decoded(s: Bytes): Bytes
    decreases |s|
  {
    if s == [] then []
    else if s[0] == PERCENT && |s| >= 3 && 0 <= 16 * HexValue(s[1]) + HexValue(s[2]) < 256 then
      [16 * HexValue(s[1]) + HexValue(s[2])] + Decoded(s[3..])
    else [s[0]] + Decoded(s[1..])
  }

  ghost predicate LetterOrDigit(c: Byte) {
    'a' as int <= c <= 'z' as int || 'A' as int <= c <= 'Z' as int || '0' as int <= c <= '9' as int
  }

  /** Letters, digits and four marks stand for themselves; any other byte is a percent sign and two upper-case digits. */
  lemma WhatAByteEncodesTo(c: Byte)
    ensures var digits := "0123456789ABCDEF";
      EncodedByte(c) ==
        if LetterOrDigit(c) || c == '-' as int || c == '.' as int || c == '_' as int || c == '~' as int then [c]
        else ['%' as int, digits[c / 16] as int, digits[c % 16] as int]
  {
    HexDigits(c / 16);
    HexDigits(c % 16);
  }

  lemma HexDigits(n: int)
    requires 0 <= n < 16
    ensures HexDigit(n) == "0123456789ABCDEF"[n] as int
  {
    var digits := "0123456789ABCDEF";
    assert digits[0] == '0' && digits[1] == '1' && digits[2] == '2' && digits[3] == '3' && digits[4] == '4' && digits[5] == '5';
    assert digits[6] == '6' && digits[7] == '7' && digits[8] == '8' && digits[9] == '9' && digits[10] == 'A' && digits[11] == 'B';
    assert digits[12] == 'C' && digits[13] == 'D' && digits[14] == 'E' && digits[15] == 'F';
  }

  lemma DecodesByte(c: Byte, rest: Bytes)
    ensures Decoded(EncodedByte(c) + rest) == [c] + Decoded(rest)
  {
    var t := EncodedByte(c) + rest;
    if Unreserved(c) {
      assert t[0] == c && t[1..] == rest;
    } else {
      assert t[0] == PERCENT && t[1] == HexDigit(c / 16) && t[2] == HexDigit(c % 16) && t[3..] == rest;
    }
  }

  lemma {:induction false} DecodesPrefix(s: Bytes, rest: Bytes)
    ensures Decoded(Encoded(s) + rest) == s + Decoded(rest)
    decreases |s|
  {
    hide EncodedByte, Decoded;
    if s == [] {
      assert Encoded(s) + rest == rest;
    } else {
      assert Encoded(s) + rest == EncodedByte(s[0]) + (Encoded(s[1..]) + rest);
      DecodesByte(s[0], Encoded(s[1..]) + rest);
      DecodesPrefix(s[1..], rest);
    }
  }

  lemma {:induction false} EncodingHasNoSlash(s: Bytes)
    ensures SLASH !in Encoded(s)
    decreases |s|
  {
    if s != [] { EncodingHasNoSlash(s[1..]); }
  }

  /** The encoding of a segment has a left inverse and never holds a separator. */
  lemma EncodingIsReversible(s: Bytes)
    ensures Decoded(Encoded(s)) == s && SLASH !in Encoded(s)
  {
    assert Encoded(s) + [] == Encoded(s);
    DecodesPrefix(s, []);
    EncodingHasNoSlash(s);
  }

  lemma {:induction false} EncodesLast(s: Bytes, c: Byte)
    ensures Encoded(s + [c]) == Encoded(s) + EncodedByte(c)
    decreases |s|
  {
    hide EncodedByte;
    if s == [] {
      assert [c][1..] == [];
    } else {
      assert (s + [c])[1..] == s[1..] + [c];
      EncodesLast(s[1..], c);
    }
  }

  method EncodeSegment(s: Bytes) returns (r: Bytes)
    ensures r == Encoded(s)
  {
    r := [];
    assert s[..0] == [];
    hide Encoded;
    for i := 0 to |s|
      invariant r == Encoded(s[..i])
    {
      var c := s[i];
      EncodesLast(s[..i], c);
      assert s[..i + 1] == s[..i] + [c];
      if Unreserved(c) {
        r := r + [c];
      } else {
        var high, low := HexDigit(c / 16), HexDigit(c % 16);
        r := r + [PERCENT, high, low];
      }
    }
    assert s[..|s|] == s;
  }

  // --- whole paths -----------------------------------------------------------------------------

  function Joined(segments: seq<Bytes>): Bytes
    decreases |segments|
  {
    if segments == [] then []
    else if |segments| == 1 then segments[0]
    else segments[0] + [SLASH] + Joined(segments[1..])
  }

  // Splitting at every slash: one more segment than there are slashes.
  function Split(p: Bytes): (segments: seq<Bytes>)
    ensures segments != []
    decreases |p|
  {
    if p == [] then [[]]
    else
      var rest := Split(p[1..]);
      if p[0] == SLASH then [[]] + rest else [[p[0]] + rest[0]] + rest[1..]
  }

  function EncodedAll(segments: seq<Bytes>): seq<Bytes>
    decreases |segments|
  {
    if segments == [] then [] else [Encoded(segments[0])] + EncodedAll(segments[1..])
  }

  lemma {:induction false} JoinsWhatItSplits(p: Bytes)
    ensures Joined(Split(p)) == p
    decreases |p|
  {
    if p != [] {
      JoinsWhatItSplits(p[1..]);
      var rest := Split(p[1..]);
      if p[0] == SLASH {
        assert ([[]] + rest)[1..] == rest;
        assert p == [SLASH] + p[1..];
      } else {
        var all := [[p[0]] + rest[0]] + rest[1..];
        assert all[1..] == rest[1..];
        assert p == [p[0]] + p[1..];
        if |rest| > 1 { assert [p[0]] + (rest[0] + [SLASH] + Joined(rest[1..])) == [p[0]] + rest[0] + [SLASH] + Joined(rest[1..]); }
      }
    }
  }

  /** Splitting is at every slash: the pieces hold none, and joined they are the path. */
  lemma {:induction false} SplitsAtEverySlash(p: Bytes)
    ensures Joined(Split(p)) == p && forall piece :: piece in Split(p) ==> '/' as int !in piece
    decreases |p|
  {
    JoinsWhatItSplits(p);
    if p != [] {
      var rest := Split(p[1..]);
      SplitsAtEverySlash(p[1..]);
      forall piece | piece in Split(p) ensures '/' as int !in piece {
        if piece !in rest && piece != [] { assert piece == [p[0]] + rest[0] && rest[0] in rest; }
      }
    }
  }

  lemma {:induction false} DecodesJoined(segments: seq<Bytes>)
    ensures Decoded(Joined(EncodedAll(segments))) == Joined(segments)
    decreases |segments|
  {
    if |segments| == 1 {
      assert EncodedAll(segments) == [Encoded(segments[0])];
      EncodingIsReversible(segments[0]);
    } else if segments != [] {
      var rest := Joined(EncodedAll(segments[1..]));
      JoinedHead(Encoded(segments[0]), EncodedAll(segments[1..]));
      JoinedHead(segments[0], segments[1..]);
      assert segments == [segments[0]] + segments[1..];
      DecodesJoined(segments[1..]);
      hide Joined, EncodedAll, Encoded;
      DecodesPrefix(segments[0], [SLASH] + rest);
      DecodesSlash(rest);
    }
  }

  lemma JoinedHead(head: Bytes, rest: seq<Bytes>)
    requires rest != []
    ensures Joined([head] + rest) == head + ([SLASH] + Joined(rest))
  {
    assert ([head] + rest)[1..] == rest;
    assert head + [SLASH] + Joined(rest) == head + ([SLASH] + Joined(rest));
  }

  lemma DecodesSlash(rest: Bytes)
    ensures Decoded([SLASH] + rest) == [SLASH] + Decoded(rest)
  {
    assert ([SLASH] + rest)[1..] == rest;
  }

  // The canonical form of a path already cleaned and placeholdered.
  function Canonical(p: Bytes): Bytes { Joined(EncodedAll(Split(p))) }

  /** Two cleaned, placeholdered paths share a canonical path only if they are the same path. */
  lemma CanonicalIsInjective(p: Bytes, q: Bytes)
    ensures Decoded(Canonical(p)) == p
    ensures Canonical(p) == Canonical(q) ==> p == q
  {
    DecodesJoined(Split(p));
    DecodesJoined(Split(q));
    JoinsWhatItSplits(p);
    JoinsWhatItSplits(q);
  }

  // --- the user placeholder --------------------------------------------------------------------

  // The pass over a suffix; `left` says whether the byte before it is alphanumeric.
  function Placed(user: Bytes, left: bool, s: Bytes): Bytes
    requires |user| >= 1
    decreases |s|
  {
    if s == [] then []
    else if user <= s && !left && (|s| == |user| || !Alnum(s[|user|])) then
      PLACEHOLDER + Placed(user, Alnum(user[|user| - 1]), s[|user|..])
    else [s[0]] + Placed(user, Alnum(s[0]), s[1..])
  }

  function UserPlaced(s: Bytes, user: Bytes): Bytes {
    if |user| < 2 || s == [] then s else Placed(user, false, s)
  }

  method ApplyUserPlaceholder(s: Bytes, user: Bytes) returns (r: Bytes)
    ensures r == UserPlaced(s, user)
  {
    if |user| < 2 || s == [] { return s; }
    r := [];
    var i := 0;
    assert s[0..] == s;
    assert PlacedFrom(user, s, 0) == Placed(user, false, s) && PlacedFrom(user, s, |s|) == [];
    hide Placed, PlacedFrom, Alnum, Matches;
    while i < |s|
      invariant i <= |s| && Placed(user, false, s) == r + PlacedFrom(user, s, i)
    {
      MatchesWhen(user, s, i);
      PlacedUnfolds(user, s, i, r);
      if !(user <= s[i..]) {
        r := r + [s[i]];
        i := i + 1;
        continue;
      }
      var end := i + |user|;
      if (i == 0 || !Alnum(s[i - 1])) && (end == |s| || !Alnum(s[end])) {
        r := r + PLACEHOLDER;
        i := end;
        continue;
      }
      r := r + [s[i]];
      i := i + 1;
    }
  }

  // The name stands at position i, bounded on both sides.
  ghost predicate Matches(user: Bytes, s: Bytes, i: nat)
    requires i < |s|
  {
    user <= s[i..] && (i == 0 || !Alnum(s[i - 1])) && (i + |user| == |s| || !Alnum(s[i + |user|]))
  }

  lemma MatchesWhen(user: Bytes, s: Bytes, i: nat)
    requires i < |s|
    ensures user <= s[i..] ==> i + |user| <= |s|
    ensures Matches(user, s, i) <==>
      user <= s[i..] && (i == 0 || !Alnum(s[i - 1])) && (i + |user| == |s| || !Alnum(s[i + |user|]))
  {
  }

  lemma Associates(a: Bytes, b: Bytes, c: Bytes)
    ensures a + (b + c) == a + b + c
  {
  }

  // What the pass still has to write from position i.
  ghost function PlacedFrom(user: Bytes, s: Bytes, i: nat): Bytes
    requires |user| >= 1 && i <= |s|
  {
    Placed(user, i > 0 && Alnum(s[i - 1]), s[i..])
  }

  lemma PlacedUnfolds(user: Bytes, s: Bytes, i: nat, before: Bytes)
    requires |user| >= 1 && i < |s|
    ensures Matches(user, s, i) ==> i + |user| <= |s|
    ensures Matches(user, s, i) ==>
      before + PlacedFrom(user, s, i) == (before + PLACEHOLDER) + PlacedFrom(user, s, i + |user|)
    ensures !Matches(user, s, i) ==>
      before + PlacedFrom(user, s, i) == (before + [s[i]]) + PlacedFrom(user, s, i + 1)
  {
    var t := s[i..];
    assert t[0] == s[i] && t[1..] == s[i + 1..];
    if user <= t {
      assert t[|user|..] == s[i + |user|..] && t[|user| - 1] == s[i + |user| - 1] == user[|user| - 1];
      assert |t| > |user| ==> t[|user|] == s[i + |user|];
    }
    if Matches(user, s, i) {
      assert PlacedFrom(user, s, i) == PLACEHOLDER + PlacedFrom(user, s, i + |user|);
      hide PlacedFrom, Matches;
      Associates(before, PLACEHOLDER, PlacedFrom(user, s, i + |user|));
    } else {
      assert PlacedFrom(user, s, i) == [s[i]] + PlacedFrom(user, s, i + 1);
      hide PlacedFrom, Matches;
      Associates(before, [s[i]], PlacedFrom(user, s, i + 1));
    }
  }

  // The leading alphanumeric run.
  function Run(s: Bytes): (r: Bytes)
    ensures r <= s && (forall i :: 0 <= i < |r| ==> Alnum(r[i])) && (|r| < |s| ==> !Alnum(s[|r|]))
    decreases |s|
  {
    if s == [] || !Alnum(s[0]) then [] else [s[0]] + Run(s[1..])
  }

  // Each maximal alphanumeric run equal to `from` becomes `to`; nothing else changes.
  function Substituted(s: Bytes, from: Bytes, to: Bytes): Bytes
    decreases |s|
  {
    if s == [] then []
    else if !Alnum(s[0]) then [s[0]] + Substituted(s[1..], from, to)
    else (if Run(s) == from then to else Run(s)) + Substituted(s[|Run(s)|..], from, to)
  }

  ghost predicate Name(user: Bytes) { |user| >= 2 && forall i :: 0 <= i < |user| ==> Alnum(user[i]) }

  // --- any name -------------------------------------------------------------------------------------

  // The name stands here, with no letter or digit beside it.
  ghost predicate Bounded(user: Bytes, s: Bytes, i: nat) {
    && i + |user| <= |s| && s[i..i + |user|] == user
    && (i == 0 || !LetterOrDigit(s[i - 1])) && (i + |user| == |s| || !LetterOrDigit(s[i + |user|]))
  }

  // The text from i on with "__USER__" in place of the name at each of these positions.
  ghost function Filled(user: Bytes, s: Bytes, at: seq<nat>, i: nat): Bytes
    decreases |at|
  {
    if i > |s| then []
    else if at == [] || !(i <= at[0] <= |s|) then s[i..]
    else s[i..at[0]] + ([95, 95, 85, 83, 69, 82, 95, 95] + Filled(user, s, at[1..], at[0] + |user|))
  }

  // Occurrences from i on that do not overlap, taking each that can be taken.
  ghost predicate Taken(user: Bytes, s: Bytes, at: seq<nat>, i: nat)
    decreases |at|
  {
    if at == [] then forall j :: j >= i ==> !Bounded(user, s, j)
    else
      && at[0] >= i && Bounded(user, s, at[0]) && (forall j :: i <= j < at[0] ==> !Bounded(user, s, j))
      && Taken(user, s, at[1..], at[0] + |user|)
  }

  /**
   * For any name of two bytes or more, from left to right, each place where it stands with no letter or digit
   * beside it, and that no earlier place overlaps, becomes the placeholder; nothing else changes.
   */
  lemma WhatThePassReplaces(user: Bytes, s: Bytes) returns (at: seq<nat>)
    requires |user| >= 2
    ensures Taken(user, s, at, 0) && UserPlaced(s, user) == Filled(user, s, at, 0)
  {
    at := TakesFrom(user, s, 0);
    assert s[0..] == s;
    if s == [] { assert Filled(user, s, at, 0) == []; }
  }

  lemma {:induction false} TakesFrom(user: Bytes, s: Bytes, i: nat) returns (at: seq<nat>)
    requires |user| >= 1 && i <= |s|
    ensures Taken(user, s, at, i) && PlacedFrom(user, s, i) == Filled(user, s, at, i)
    decreases |s| - i
  {
    if i == |s| {
      at := [];
      NothingLeft(user, s);
    } else {
      StepsOn(user, s, i);
      hide Bounded, PlacedFrom, Filled, Taken;
      if Bounded(user, s, i) {
        TakenFits(user, s, i);
        var rest := TakesFrom(user, s, i + |user|);
        at := [i] + rest;
        TakesOne(user, s, rest, i);
      } else {
        at := TakesFrom(user, s, i + 1);
        SkipsOne(user, s, at, i);
      }
    }
  }

  lemma NothingLeft(user: Bytes, s: Bytes)
    requires |user| >= 1
    ensures Taken(user, s, [], |s|) && PlacedFrom(user, s, |s|) == [] == Filled(user, s, [], |s|)
  {
  }

  lemma {:induction false} TakesOne(user: Bytes, s: Bytes, rest: seq<nat>, i: nat)
    requires Bounded(user, s, i) && i + |user| <= |s| && Taken(user, s, rest, i + |user|)
    ensures Taken(user, s, [i] + rest, i) && Filled(user, s, [i] + rest, i) == PLACEHOLDER + Filled(user, s, rest, i + |user|)
  {
    hide Bounded;
    var at := [i] + rest;
    assert at[0] == i && at[1..] == rest && s[i..i] == [];
    var tail := Filled(user, s, rest, i + |user|);
    assert Filled(user, s, at, i) == s[i..i] + ([95, 95, 85, 83, 69, 82, 95, 95] + tail);
    hide Filled, Taken;
    assert PLACEHOLDER == [95, 95, 85, 83, 69, 82, 95, 95];
  }

  lemma StepsOn(user: Bytes, s: Bytes, i: nat)
    requires |user| >= 1 && i < |s|
    ensures if Bounded(user, s, i)
      then i + |user| <= |s| && PlacedFrom(user, s, i) == PLACEHOLDER + PlacedFrom(user, s, i + |user|)
      else PlacedFrom(user, s, i) == [s[i]] + PlacedFrom(user, s, i + 1)
  {
    assert Matches(user, s, i) <==> Bounded(user, s, i) by { PrefixAt(user, s, i); }
    PlacedUnfolds(user, s, i, []);
    hide Matches, Bounded, PlacedFrom;
    assert [] + PlacedFrom(user, s, i) == PlacedFrom(user, s, i);
    assert [] + PLACEHOLDER == PLACEHOLDER && [] + [s[i]] == [s[i]];
  }

  lemma PrefixAt(user: Bytes, s: Bytes, i: nat)
    requires i < |s|
    ensures user <= s[i..] <==> i + |user| <= |s| && s[i..i + |user|] == user
  {
    if i + |user| <= |s| { assert s[i..][..|user|] == s[i..i + |user|]; }
  }

  lemma {:induction false} SkipsOne(user: Bytes, s: Bytes, at: seq<nat>, i: nat)
    requires i < |s| && !Bounded(user, s, i) && Taken(user, s, at, i + 1)
    ensures Taken(user, s, at, i) && Filled(user, s, at, i) == [s[i]] + Filled(user, s, at, i + 1)
  {
    hide Bounded;
    if at != [] { assert at[0] <= |s| by { TakenFits(user, s, at[0]); } assert s[i..at[0]] == [s[i]] + s[i + 1..at[0]]; }
  }

  lemma TakenFits(user: Bytes, s: Bytes, i: nat)
    requires Bounded(user, s, i)
    ensures i + |user| <= |s|
  {
  }

  // --- names of letters and digits ----------------------------------------------------------------

  // Inside a run nothing can match, so the rest of the run is copied.
  lemma {:induction false} RestOfRunIsCopied(user: Bytes, s: Bytes)
    requires Name(user)
    ensures Placed(user, true, s) == Run(s) + Placed(user, true, s[|Run(s)|..])
    decreases |s|
  {
    if s != [] && Alnum(s[0]) {
      RestOfRunIsCopied(user, s[1..]);
      assert s[1..][|Run(s[1..])|..] == s[|Run(s)|..];
    } else {
      assert s[0..] == s;
    }
  }

  lemma NoPrefix(a: Bytes, b: Bytes)
    requires a != [] && b != [] && a[0] != b[0]
    ensures !(a <= b)
  {
  }

  lemma {:induction false} RunCoversPrefix(user: Bytes, s: Bytes)
    requires user <= s && forall i :: 0 <= i < |user| ==> Alnum(user[i])
    ensures |Run(s)| >= |user|
    decreases |user|
  {
    if user != [] { RunCoversPrefix(user[1..], s[1..]); }
  }

  // At a byte that is not alphanumeric the pass copies it, whatever came before.
  lemma BoundaryIsCopied(user: Bytes, left: bool, s: Bytes)
    requires Name(user) && s != [] && !Alnum(s[0])
    ensures Placed(user, left, s) == [s[0]] + Placed(user, false, s[1..])
  {
    NoPrefix(user, s);
  }

  lemma MatchIsAWholeRun(user: Bytes, s: Bytes)
    requires Name(user) && s != [] && Alnum(s[0])
    ensures (user <= s && (|s| == |user| || !Alnum(s[|user|]))) <==> Run(s) == user
  {
    var run := Run(s);
    assert |run| > |user| ==> run[|user|] == s[|user|];
    if user <= s { RunCoversPrefix(user, s); }
  }

  // At the start of a run the pass takes the whole run or copies it, and goes on after it.
  lemma RunIsReplaced(user: Bytes, s: Bytes)
    requires Name(user) && s != [] && Alnum(s[0])
    ensures Placed(user, false, s)
         == (if Run(s) == user then PLACEHOLDER else Run(s)) + Placed(user, true, s[|Run(s)|..])
  {
    MatchIsAWholeRun(user, s);
    if Run(s) == user {
      assert Alnum(user[|user| - 1]);
    } else {
      RestOfRunIsCopied(user, s[1..]);
      assert Run(s) == [s[0]] + Run(s[1..]) && s[1..][|Run(s[1..])|..] == s[|Run(s)|..];
      hide Run;
      Associates([s[0]], Run(s[1..]), Placed(user, true, s[|Run(s)|..]));
    }
  }

  /** The pass replaces exactly the maximal alphanumeric runs equal to the name. */
  lemma {:induction false} ReplacesWholeRuns(user: Bytes, s: Bytes)
    requires Name(user)
    ensures Placed(user, false, s) == Substituted(s, user, PLACEHOLDER)
    decreases |s|
  {
    hide Placed, Run;
    if s == [] {
      PlacedNothing(user);
    } else if !Alnum(s[0]) {
      BoundaryIsCopied(user, false, s);
      ReplacesWholeRuns(user, s[1..]);
    } else {
      var rest := s[|Run(s)|..];
      RunStarts(s);
      RunIsReplaced(user, s);
      AfterRun(user, rest);
      ReplacesWholeRuns(user, rest);
    }
  }

  lemma PlacedNothing(user: Bytes)
    requires |user| >= 1
    ensures Placed(user, false, []) == []
  {
  }

  lemma RunStarts(s: Bytes)
    requires s != [] && Alnum(s[0])
    ensures |Run(s)| >= 1
  {
  }

  lemma AfterRun(user: Bytes, rest: Bytes)
    requires Name(user) && (rest == [] || !Alnum(rest[0]))
    ensures Placed(user, true, rest) == Placed(user, false, rest)
  {
    if rest != [] {
      BoundaryIsCopied(user, true, rest);
      BoundaryIsCopied(user, false, rest);
    }
  }

  // Substitution reads run by run, so it distributes over text that starts at a boundary.
  lemma {:induction false} RunThenBoundary(r: Bytes, rest: Bytes)
    requires (forall i :: 0 <= i < |r| ==> Alnum(r[i])) && (rest == [] || !Alnum(rest[0]))
    ensures Run(r + rest) == r && (r + rest)[|r|..] == rest
    decreases |r|
  {
    assert (r + rest)[|r|..] == rest;
    if r == [] {
      assert r + rest == rest;
    } else {
      var all := r + rest;
      assert all[0] == r[0] && all[1..] == r[1..] + rest;
      hide Alnum;
      RunThenBoundary(r[1..], rest);
      assert Run(all) == [r[0]] + r[1..];
    }
  }

  lemma SubstitutesRun(r: Bytes, rest: Bytes, from: Bytes, to: Bytes)
    requires r != [] && (forall i :: 0 <= i < |r| ==> Alnum(r[i])) && (rest == [] || !Alnum(rest[0]))
    ensures Substituted(r + rest, from, to) == (if r == from then to else r) + Substituted(rest, from, to)
  {
    RunThenBoundary(r, rest);
    assert Alnum((r + rest)[0]);
  }

  lemma SubstitutesBoundary(c: Byte, rest: Bytes, from: Bytes, to: Bytes)
    requires !Alnum(c)
    ensures Substituted([c] + rest, from, to) == [c] + Substituted(rest, from, to)
  {
    assert ([c] + rest)[1..] == rest;
  }

  lemma BoundaryStays(s: Bytes, from: Bytes, to: Bytes)
    requires s == [] || !Alnum(s[0])
    ensures Substituted(s, from, to) == [] || !Alnum(Substituted(s, from, to)[0])
  {
  }

  lemma PlaceholderStays(rest: Bytes, from: Bytes)
    requires from != USER && (rest == [] || !Alnum(rest[0]))
    ensures Substituted(PLACEHOLDER + rest, from, PLACEHOLDER) == PLACEHOLDER + Substituted(rest, from, PLACEHOLDER)
  {
    hide Substituted, Run;
    PlaceholderParts(rest);
    PlaceholderParts(Substituted(rest, from, PLACEHOLDER));
    var one := [UNDERSCORE] + rest;
    var two := [UNDERSCORE] + one;
    SubstitutesBoundary(UNDERSCORE, [UNDERSCORE] + (USER + two), from, PLACEHOLDER);
    SubstitutesBoundary(UNDERSCORE, USER + two, from, PLACEHOLDER);
    SubstitutesRun(USER, two, from, PLACEHOLDER);
    SubstitutesBoundary(UNDERSCORE, one, from, PLACEHOLDER);
    SubstitutesBoundary(UNDERSCORE, rest, from, PLACEHOLDER);
  }

  lemma PlaceholderParts(rest: Bytes)
    ensures PLACEHOLDER + rest
         == [UNDERSCORE] + ([UNDERSCORE] + (USER + ([UNDERSCORE] + ([UNDERSCORE] + rest))))
  {
  }

  lemma {:induction false} SubstitutingTwiceIsOnce(s: Bytes, from: Bytes)
    requires Name(from) && from != USER
    ensures var once := Substituted(s, from, PLACEHOLDER); Substituted(once, from, PLACEHOLDER) == once
    decreases |s|
  {
    if s != [] {
      if !Alnum(s[0]) {
        SubstitutingTwiceIsOnce(s[1..], from);
        SubstitutesBoundary(s[0], Substituted(s[1..], from, PLACEHOLDER), from, PLACEHOLDER);
      } else {
        var rest := s[|Run(s)|..];
        SubstitutingTwiceIsOnce(rest, from);
        BoundaryStays(rest, from, PLACEHOLDER);
        if Run(s) == from {
          PlaceholderStays(Substituted(rest, from, PLACEHOLDER), from);
        } else {
          SubstitutesRun(Run(s), Substituted(rest, from, PLACEHOLDER), from, PLACEHOLDER);
        }
      }
    }
  }

  // No maximal run of s is this name.
  ghost predicate Free(s: Bytes, name: Bytes)
    decreases |s|
  {
    s == [] || (if !Alnum(s[0]) then Free(s[1..], name) else Run(s) != name && Free(s[|Run(s)|..], name))
  }

  lemma {:induction false} SubstitutionsCompose(s: Bytes, user: Bytes, renamed: Bytes)
    requires Name(user) && Name(renamed) && Free(s, renamed)
    ensures Substituted(Substituted(s, user, renamed), renamed, PLACEHOLDER) == Substituted(s, user, PLACEHOLDER)
    decreases |s|
  {
    if s != [] {
      if !Alnum(s[0]) {
        SubstitutionsCompose(s[1..], user, renamed);
        SubstitutesBoundary(s[0], Substituted(s[1..], user, renamed), renamed, PLACEHOLDER);
      } else {
        var rest := s[|Run(s)|..];
        SubstitutionsCompose(rest, user, renamed);
        BoundaryStays(rest, user, renamed);
        SubstitutesRun(if Run(s) == user then renamed else Run(s), Substituted(rest, user, renamed), renamed, PLACEHOLDER);
      }
    }
  }

  lemma UserPlacedIsSubstitution(s: Bytes, user: Bytes)
    requires Name(user)
    ensures UserPlaced(s, user) == Substituted(s, user, PLACEHOLDER)
  {
    ReplacesWholeRuns(user, s);
  }

  ghost predicate IdempotentFor(user: Bytes) { forall s :: UserPlaced(UserPlaced(s, user), user) == UserPlaced(s, user) }

  /** Placing the placeholder twice is placing it once, unless the name is the placeholder's own word. */
  lemma PlacingIsIdempotent(user: Bytes)
    requires Name(user)
    ensures IdempotentFor(user) <==> user != USER
  {
    if user != USER {
      forall s ensures UserPlaced(UserPlaced(s, user), user) == UserPlaced(s, user) {
        UserPlacedIsSubstitution(s, user);
        UserPlacedIsSubstitution(UserPlaced(s, user), user);
        SubstitutingTwiceIsOnce(s, user);
      }
    } else {
      WordItselfGrows();
    }
  }

  lemma WordItselfGrows()
    ensures |UserPlaced(UserPlaced(USER, USER), USER)| > |UserPlaced(USER, USER)|
  {
    var two := [UNDERSCORE] + [UNDERSCORE];
    UserPlacedIsSubstitution(USER, USER);
    UserPlacedIsSubstitution(PLACEHOLDER, USER);
    assert USER + [] == USER && PLACEHOLDER + [] == PLACEHOLDER;
    SubstitutesRun(USER, [], USER, PLACEHOLDER);
    assert PLACEHOLDER == [UNDERSCORE] + ([UNDERSCORE] + (USER + two));
    SubstitutesBoundary(UNDERSCORE, [UNDERSCORE] + (USER + two), USER, PLACEHOLDER);
    SubstitutesBoundary(UNDERSCORE, USER + two, USER, PLACEHOLDER);
    SubstitutesRun(USER, two, USER, PLACEHOLDER);
  }

  /** A user renamed throughout, to a name the path did not hold, leaves every canonical path as it was. */
  lemma RenamingKeepsThePath(s: Bytes, user: Bytes, renamed: Bytes)
    requires Name(user) && Name(renamed) && Free(s, renamed)
    ensures UserPlaced(Substituted(s, user, renamed), renamed) == UserPlaced(s, user)
    ensures Canonical(UserPlaced(Substituted(s, user, renamed), renamed)) == Canonical(UserPlaced(s, user))
  {
    UserPlacedIsSubstitution(s, user);
    UserPlacedIsSubstitution(Substituted(s, user, renamed), renamed);
    SubstitutionsCompose(s, user, renamed);
  }

  // A cleaned path, relative or rooted; the empty path is spelled "." by the cleaning.
  function Trimmed(cleaned: Bytes): Bytes {
    var p := if cleaned != [] && cleaned[0] == SLASH then cleaned[1..] else cleaned;
    if p == [DOT] then [] else p
  }

  /** One slash at the start is dropped, and a path that is only a dot is empty. */
  lemma WhatIsTrimmed(p: Bytes)
    ensures p != ['.' as int] ==> Trimmed(['/' as int] + p) == p
    ensures !(['/' as int] <= p) && p != ['.' as int] ==> Trimmed(p) == p
    ensures Trimmed(['.' as int]) == [] && Trimmed(['/' as int, '.' as int]) == []
  {
    assert (['/' as int] + p)[1..] == p;
    assert [SLASH, DOT][1..] == [DOT];
  }

  method CanonicalPath(cleaned: Bytes, user: Bytes) returns (r: Bytes)
    ensures r == Canonical(UserPlaced(Trimmed(cleaned), user))
  {
    var p := if cleaned != [] && cleaned[0] == SLASH then cleaned[1..] else cleaned;
    if p == [DOT] { p := []; }
    p := ApplyUserPlaceholder(p, user);
    var segments := Split(p);
    var encoded: seq<Bytes> := [];
    for i := 0 to |segments|
      invariant |encoded| == i && forall j :: 0 <= j < i ==> encoded[j] == Encoded(segments[j])
    {
      var s := EncodeSegment(segments[i]);
      encoded := encoded + [s];
    }
    EncodesEach(segments, encoded);
    r := Joined(encoded);
  }

  lemma {:induction false} EncodesEach(segments: seq<Bytes>, encoded: seq<Bytes>)
    requires |encoded| == |segments| && forall j :: 0 <= j < |segments| ==> encoded[j] == Encoded(segments[j])
    ensures encoded == EncodedAll(segments)
    decreases |segments|
  {
    if segments != [] { EncodesEach(segments[1..], encoded[1..]); }
  }
}
