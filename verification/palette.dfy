/** The palette check of the handler: the regular expression
    `^(?:(?:#?[0-9A-F]{6}|X)\,){15}(?:#?[0-9A-F]{6}|X)$` applied with
    Python's `re.match`. */
module Palette {
  import opened Wrappers
  import opened Strings

  /** The number of entries a palette must have. */
  const Entries: nat := 16

  /** `[0-9A-F]`: an upper-case hexadecimal digit. */
  predicate IsHex(c: char)
  {
    '0' <= c <= '9' || 'A' <= c <= 'F'
  }

  predicate AllHex(s: string)
  {
    forall i :: 0 <= i < |s| ==> IsHex(s[i])
  }

  /** One entry, `#?[0-9A-F]{6}|X`: six upper-case hex digits with an
      optional leading `#`, or the transparent marker `X`. */
  predicate IsToken(t: string)
  {
    || t == "X"
    || (|t| == 6 && AllHex(t))
    || (|t| == 7 && t[0] == '#' && AllHex(t[1..]))
  }

  predicate AllTokens(toks: seq<string>)
  {
    forall i :: 0 <= i < |toks| ==> IsToken(toks[i])
  }

  /** The language of the pattern without its anchors: exactly sixteen
      entries joined by commas. */
  ghost predicate IsPaletteBody(u: string)
  {
    exists toks: seq<string> :: |toks| == Entries && AllTokens(toks) && Join(toks, ',') == u
  }

  /** What the anchored pattern accepts: Python's `$` matches at the very
      end and also just before one final newline. */
  ghost predicate Accepted(s: string)
  {
    || IsPaletteBody(s)
    || (|s| >= 1 && s[|s| - 1] == '\n' && IsPaletteBody(s[..|s| - 1]))
  }

  // ---------------------------------------------------------------------
  // The matcher. It follows the pattern piece by piece. The three
  // alternatives of an entry start with different characters (`#`, a hex
  // digit, `X`), so at each position at most one of them can match and a
  // backtracking search has no other choice to try.
  // ---------------------------------------------------------------------

  /** The length of the entry `#?[0-9A-F]{6}|X` matched at the start of `s`. */
  function TokenAt(s: string): (n: Option<nat>)
    ensures n.Some? ==> 1 <= n.value <= |s| && IsToken(s[..n.value])
  {
    if |s| >= 7 && s[0] == '#' && AllHex(s[1..7]) then Some(7)
    else if |s| >= 6 && AllHex(s[..6]) then Some(6)
    else if |s| >= 1 && s[0] == 'X' then Some(1)
    else None
  }

  /** `(?:ENTRY\,){k}` matched at the start of `s`; the unconsumed rest. */
  function RepeatAt(s: string, k: nat): Option<string>
  {
    if k == 0 then Some(s)
    else
      match TokenAt(s)
      case None => None
      case Some(n) =>
        if n < |s| && s[n] == ',' then RepeatAt(s[n + 1..], k - 1) else None
  }

  /** `$`: the end of the string, or a single newline that ends it. */
  predicate AtEnd(rest: string)
  {
    rest == "" || rest == "\n"
  }

  /** `PALETTE_PATTERN.match(s)` succeeds. */
  predicate Matches(s: string)
  {
    match RepeatAt(s, Entries - 1)
    case None => false
    case Some(rest) =>
      match TokenAt(rest)
      case None => false
      case Some(n) => AtEnd(rest[n..])
  }

  // ---------------------------------------------------------------------
  // The matcher accepts exactly the language.
  // ---------------------------------------------------------------------

  /** Each entry followed by a comma: `t0 + "," + t1 + "," + ...`. */
  function Terminated(toks: seq<string>): string
  {
    if |toks| == 0 then "" else toks[0] + "," + Terminated(toks[1..])
  }

  lemma {:induction false} JoinTerminated(toks: seq<string>, last: string)
    ensures Join(toks + [last], ',') == Terminated(toks) + last
    decreases |toks|
  {
    if |toks| > 0 {
      assert (toks + [last])[1..] == toks[1..] + [last];
      JoinTerminated(toks[1..], last);
    }
  }

  /** An entry is recognised whatever follows it. */
  lemma TokenAtToken(t: string, rest: string)
    requires IsToken(t)
    ensures TokenAt(t + rest) == Some(|t|)
  {
    var s := t + rest;
    assert s[..|t|] == t;
    if |t| == 7 {
      assert s[1..7] == t[1..];
    } else if |t| == 6 {
      assert s[..6] == t;
    } else {
      assert s[0] == 'X';
      assert !IsHex(s[0]);
    }
  }

  lemma {:induction false} RepeatAtTerminated(toks: seq<string>, rest: string)
    requires AllTokens(toks)
    ensures RepeatAt(Terminated(toks) + rest, |toks|) == Some(rest)
    decreases |toks|
  {
    if |toks| > 0 {
      var t := toks[0];
      var tail := Terminated(toks[1..]) + rest;
      var s := Terminated(toks) + rest;
      assert s == t + ("," + tail);
      TokenAtToken(t, "," + tail);
      assert s[|t|] == ',';
      assert s[|t| + 1..] == tail;
      RepeatAtTerminated(toks[1..], rest);
    } else {
      assert Terminated(toks) + rest == rest;
    }
  }

  /** The entries `RepeatAt` recognised, in order. */
  function Scanned(s: string, k: nat): seq<string>
    requires RepeatAt(s, k).Some?
    decreases k
  {
    if k == 0 then [] else
      var n := TokenAt(s).value;
      [s[..n]] + Scanned(s[n + 1..], k - 1)
  }

  lemma {:induction false} RepeatAtSound(s: string, k: nat, rest: string)
    requires RepeatAt(s, k) == Some(rest)
    ensures |Scanned(s, k)| == k && AllTokens(Scanned(s, k)) && s == Terminated(Scanned(s, k)) + rest
    decreases k
  {
    if k == 0 {
      assert s == Terminated([]) + rest;
    } else {
      var n := TokenAt(s).value;
      RepeatAtSound(s[n + 1..], k - 1, rest);
      SoundStep(s, n, Scanned(s[n + 1..], k - 1), rest);
    }
  }

  /** One step of `RepeatAtSound`: an entry and its comma in front of
      entries already recognised. */
  lemma SoundStep(s: string, n: nat, toks: seq<string>, rest: string)
    requires 1 <= n < |s| && IsToken(s[..n]) && s[n] == ','
    requires AllTokens(toks) && s[n + 1..] == Terminated(toks) + rest
    ensures AllTokens([s[..n]] + toks) && s == Terminated([s[..n]] + toks) + rest
  {
    var t := s[..n];
    var all := [t] + toks;
    assert all[0] == t && all[1..] == toks;
    assert Terminated(all) == t + "," + Terminated(toks);
    assert s == s[..n] + [s[n]] + s[n + 1..];
    ConcatAssoc(t, Terminated(toks), rest);
  }

  lemma ConcatAssoc(t: string, mid: string, rest: string)
    ensures t + "," + (mid + rest) == (t + "," + mid) + rest
  {
  }

  /** Whatever the matcher accepts is in the language. */
  lemma MatchesSound(s: string)
    requires Matches(s)
    ensures Accepted(s)
  {
    var rest := RepeatAt(s, Entries - 1).value;
    var n := TokenAt(rest).value;
    RepeatAtSound(s, Entries - 1, rest);
    var toks := Scanned(s, Entries - 1);
    var all := toks + [rest[..n]];
    JoinTerminated(toks, rest[..n]);
    assert rest == rest[..n] + rest[n..];
    assert AllTokens(all);
    if rest[n..] == "" {
      assert Join(all, ',') == s;
    } else {
      assert s == Join(all, ',') + "\n";
      assert s[..|s| - 1] == Join(all, ',');
    }
  }

  /** Sixteen entries joined by commas and followed by `tail`, where `tail`
      is what `$` allows, are accepted by the matcher. */
  lemma MatchesComplete(toks: seq<string>, tail: string)
    requires |toks| == Entries && AllTokens(toks) && AtEnd(tail)
    ensures Matches(Join(toks, ',') + tail)
  {
    var s := Join(toks, ',') + tail;
    var first := toks[..Entries - 1];
    var last := toks[Entries - 1];
    assert toks == first + [last];
    JoinTerminated(first, last);
    RepeatAtTerminated(first, last + tail);
    assert s == Terminated(first) + (last + tail);
    TokenAtToken(last, tail);
    assert (last + tail)[|last|..] == tail;
  }

  /** The matcher accepts a string exactly when the anchored pattern's
      language holds it. */
  lemma MatchesIffAccepted(s: string)
    ensures Matches(s) <==> Accepted(s)
  {
    if Matches(s) {
      MatchesSound(s);
    }
    if Accepted(s) {
      var u := if IsPaletteBody(s) then s else s[..|s| - 1];
      var tail := if IsPaletteBody(s) then "" else "\n";
      assert s == u + tail;
      var toks :| |toks| == Entries && AllTokens(toks) && Join(toks, ',') == u;
      MatchesComplete(toks, tail);
    }
  }

  // ---------------------------------------------------------------------
  // Consequences.
  // ---------------------------------------------------------------------

  /** The text the pattern's body must match: the palette without the one
      final newline that `$` tolerates. */
  function WithoutFinalNewline(s: string): (u: string)
    ensures u == s || (s == u + "\n")
  {
    if |s| >= 1 && s[|s| - 1] == '\n' then s[..|s| - 1] else s
  }

  predicate NoNewline(s: string)
  {
    '\n' !in s
  }

  lemma {:induction false} JoinOfTokensNoNewline(toks: seq<string>)
    requires AllTokens(toks)
    ensures NoNewline(Join(toks, ','))
    decreases |toks|
  {
    if |toks| > 1 {
      JoinOfTokensNoNewline(toks[1..]);
      assert IsToken(toks[0]);
      assert NoNewline(toks[0]);
    } else if |toks| == 1 {
      assert IsToken(toks[0]);
    }
  }

  lemma TokenPiecesNoComma(toks: seq<string>)
    requires AllTokens(toks)
    ensures NoSep(toks, ',')
  {
    forall i | 0 <= i < |toks|
      ensures ',' !in toks[i]
    {
      assert IsToken(toks[i]);
    }
  }

  /** A palette is accepted exactly when, after dropping one final newline,
      it splits on commas into sixteen pieces that are all entries. */
  lemma MatchesIffSplit(s: string)
    ensures Matches(s) <==> (|Split(WithoutFinalNewline(s), ',')| == Entries && AllTokens(Split(WithoutFinalNewline(s), ',')))
  {
    MatchesIffAccepted(s);
    var pieces := Split(WithoutFinalNewline(s), ',');
    if Accepted(s) {
      var u := if IsPaletteBody(s) then s else s[..|s| - 1];
      var toks :| |toks| == Entries && AllTokens(toks) && Join(toks, ',') == u;
      JoinOfTokensNoNewline(toks);
      if IsPaletteBody(s) && |s| >= 1 {
        assert s[|s| - 1] in s;
      }
      assert WithoutFinalNewline(s) == u;
      TokenPiecesNoComma(toks);
      SplitJoin(toks, ',');
    }
    if |pieces| == Entries && AllTokens(pieces) {
      JoinSplit(WithoutFinalNewline(s), ',');
      assert IsPaletteBody(WithoutFinalNewline(s));
    }
  }

  /** Sixteen entries joined by commas are accepted, with or without one
      trailing newline. */
  lemma JoinedEntriesMatch(toks: seq<string>)
    requires |toks| == Entries && AllTokens(toks)
    ensures Matches(Join(toks, ','))
    ensures Matches(Join(toks, ',') + "\n")
  {
    MatchesComplete(toks, "");
    assert Join(toks, ',') + "" == Join(toks, ',');
    MatchesComplete(toks, "\n");
  }

  /** A palette whose comma-separated pieces are not sixteen (fifteen,
      seventeen, ...) is rejected, and so is one with an empty or
      malformed piece. */
  lemma WrongShapeRejected(s: string)
    requires |Split(WithoutFinalNewline(s), ',')| != Entries || exists i :: 0 <= i < |Split(WithoutFinalNewline(s), ',')| && !IsToken(Split(WithoutFinalNewline(s), ',')[i])
    ensures !Matches(s)
  {
    MatchesIffSplit(s);
  }

  /** An empty piece is never an entry. */
  lemma EmptyPieceRejected(s: string, i: nat)
    requires i < |Split(WithoutFinalNewline(s), ',')| && Split(WithoutFinalNewline(s), ',')[i] == ""
    ensures !Matches(s)
  {
    MatchesIffSplit(s);
  }

  /** Only upper-case hex digits, `#`, `X`, commas and one final newline can
      occur in an accepted palette; lower-case hex digits in particular
      cannot. */
  lemma AcceptedAlphabet(s: string)
    requires Matches(s)
    ensures forall i :: 0 <= i < |s| ==> IsHex(s[i]) || s[i] in "#X,\n"
    ensures forall i :: 0 <= i < |s| && s[i] == '\n' ==> i == |s| - 1
  {
    MatchesIffSplit(s);
    var u := WithoutFinalNewline(s);
    var pieces := Split(u, ',');
    JoinSplit(u, ',');
    JoinTokensAlphabet(pieces);
    JoinOfTokensNoNewline(pieces);
    assert forall i :: 0 <= i < |u| ==> s[i] == u[i];
  }

  lemma {:induction false} JoinTokensAlphabet(toks: seq<string>)
    requires AllTokens(toks)
    ensures forall i :: 0 <= i < |Join(toks, ',')| ==> IsHex(Join(toks, ',')[i]) || Join(toks, ',')[i] in "#X,"
    decreases |toks|
  {
    if |toks| > 1 {
      JoinTokensAlphabet(toks[1..]);
      assert IsToken(toks[0]);
    } else if |toks| == 1 {
      assert IsToken(toks[0]);
    }
  }
}
