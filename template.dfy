/**
 * The `${URL}` placeholder substitution used to build the verification link
 * and the verification mail bodies: `s.replace(/\$\{URL\}/g, r)`.
 *
 * `Replace` follows the semantics of `String.prototype.replace` with a global
 * regular expression and a string replacement, as the ECMAScript language
 * specification defines it (abstract operation GetSubstitution): matches are
 * found left to right without overlap, and in the replacement string the
 * sequences `$$`, `$&`, `` $` `` and `$'` stand for a dollar sign, the match,
 * the text before the match and the text after it. The pattern has no capture
 * groups, so `$1` and the like stay literal.
 *
 * `Substitute` is the plain textual replacement, and `Split`/`Join` give an
 * independent reference for it: replacing every marker equals splitting at the
 * markers and joining with the replacement.
 */
module Template {

  /** The text that the pattern `/\$\{URL\}/g` matches. */
  const Marker: string := "${URL}"

  predicate MarkerAt(s: string, i: nat) {
    i + |Marker| <= |s| && s[i..i + |Marker|] == Marker
  }

  ghost predicate HasMarker(s: string) {
    exists i: nat :: MarkerAt(s, i)
  }

  /** GetSubstitution for a match of `Marker` between `before` and `after`. */
  function Expand(r: string, before: string, after: string): string
    decreases |r|
  {
    if |r| >= 2 && r[0] == '$' && r[1] == '$' then "$" + Expand(r[2..], before, after)
    else if |r| >= 2 && r[0] == '$' && r[1] == '&' then Marker + Expand(r[2..], before, after)
    else if |r| >= 2 && r[0] == '$' && r[1] == '`' then before + Expand(r[2..], before, after)
    else if |r| >= 2 && r[0] == '$' && r[1] == '\'' then after + Expand(r[2..], before, after)
    else if r == [] then []
    else [r[0]] + Expand(r[1..], before, after)
  }

  /** The result of the global replace on `s`, for the part from position `i` on. */
  function ReplaceFrom(s: string, i: nat, r: string): string
    requires i <= |s|
    decreases |s| - i
  {
    if i == |s| then []
    else if MarkerAt(s, i) then
      Expand(r, s[..i], s[i + |Marker|..]) + ReplaceFrom(s, i + |Marker|, r)
    else [s[i]] + ReplaceFrom(s, i + 1, r)
  }

  /**
   * `s.replace(/\$\{URL\}/g, r)`. A template without the marker is left as
   * it is, whatever the replacement; for a replacement without a dollar sign,
   * nothing in it is special, and the result is the plain textual substitution.
   */
  function Replace(s: string, r: string): (t: string)
    ensures !HasMarker(s) ==> t == s
    ensures '$' !in r ==> t == Substitute(s, r)
  {
    ReplaceFromNoMarker(s, 0, r);
    assert s[0..] == s;
    if '$' in r then ReplaceFrom(s, 0, r)
    else
      ReplaceFromIsSubstitute(s, 0, r);
      ReplaceFrom(s, 0, r)
  }

  /** Every `Marker` in `s`, left to right, replaced by `r` taken literally. */
  function Substitute(s: string, r: string): string
    decreases |s|
  {
    if s == [] then []
    else if Marker <= s then r + Substitute(s[|Marker|..], r)
    else [s[0]] + Substitute(s[1..], r)
  }

  /** `pieces.join(sep)` */
  function Join(pieces: seq<string>, sep: string): string
    decreases |pieces|
  {
    if |pieces| == 0 then []
    else if |pieces| == 1 then pieces[0]
    else pieces[0] + sep + Join(pieces[1..], sep)
  }

  /** `s.split("${URL}")`: the pieces between the markers of `s`. */
  function Split(s: string): seq<string>
    decreases |s|
  {
    if s == [] then [[]]
    else if Marker <= s then [[]] + Split(s[|Marker|..])
    else
      var rest := Split(s[1..]);
      [[s[0]] + rest[0]] + rest[1..]
  }

  /** Splitting yields at least one piece, no piece holds the marker, and joining with the marker gives `s` back. */
  lemma {:induction false} SplitJoin(s: string)
    ensures |Split(s)| > 0
    ensures Join(Split(s), Marker) == s
    ensures forall k :: 0 <= k < |Split(s)| ==> !HasMarker(Split(s)[k])
    decreases |s|
  {
    if s == [] {
      assert forall i: nat :: !MarkerAt(s, i);
    } else if Marker <= s {
      var rest := Split(s[|Marker|..]);
      SplitJoin(s[|Marker|..]);
      assert !HasMarker([]) by { assert forall i: nat :: !MarkerAt([], i); }
      assert ([[]] + rest)[1..] == rest;
      assert s == Marker + s[|Marker|..];
    } else {
      var rest := Split(s[1..]);
      SplitJoin(s[1..]);
      FirstPieceHasNoMarker(s, rest);
      assert Split(s)[1..] == rest[1..];
    }
  }

  /** Helper for `SplitJoin`: the first piece, extended by the first character of `s`, stays marker-free. */
  lemma FirstPieceHasNoMarker(s: string, rest: seq<string>)
    requires s != [] && !(Marker <= s)
    requires |rest| > 0 && Join(rest, Marker) == s[1..]
    requires !HasMarker(rest[0])
    ensures !HasMarker([s[0]] + rest[0])
    ensures Join([[s[0]] + rest[0]] + rest[1..], Marker) == s
  {
    var pieces := [[s[0]] + rest[0]] + rest[1..];
    JoinCons(s[0], rest, Marker);
    assert s == [s[0]] + s[1..];
    JoinPrefix(pieces, Marker);
    assert pieces[0][1..] == rest[0];
    ConsNoMarker(pieces[0], s);
  }

  /** Putting a character in front of the first piece puts it in front of the joined string. */
  lemma JoinCons(c: char, pieces: seq<string>, sep: string)
    requires |pieces| > 0
    ensures Join([[c] + pieces[0]] + pieces[1..], sep) == [c] + Join(pieces, sep)
  {
  }

  /** The first piece is a prefix of the joined string. */
  lemma JoinPrefix(pieces: seq<string>, sep: string)
    requires |pieces| > 0
    ensures pieces[0] <= Join(pieces, sep)
  {
  }

  /** A marker-free string stays marker-free when a character that does not start a marker is put in front. */
  lemma ConsNoMarker(first: string, s: string)
    requires first != [] && first <= s && !(Marker <= s)
    requires !HasMarker(first[1..])
    ensures !HasMarker(first)
  {
    forall i: nat
      ensures !MarkerAt(first, i)
    {
      if i + |Marker| <= |first| {
        if i == 0 {
          assert first[..|Marker|] == s[..|Marker|];
        } else {
          var here, there := first[i..i + |Marker|], first[1..][i - 1..i - 1 + |Marker|];
          forall k | 0 <= k < |Marker|
            ensures here[k] == there[k]
          {
          }
          assert here == there;
          assert !MarkerAt(first[1..], i - 1);
        }
      }
    }
  }

  /** In a replacement without a dollar sign, nothing is special. */
  lemma {:induction false} ExpandLiteral(r: string, before: string, after: string)
    requires '$' !in r
    ensures Expand(r, before, after) == r
    decreases |r|
  {
    if r != [] {
      assert r[0] != '$';
      assert '$' !in r[1..] by { assert forall c :: c in r[1..] ==> c in r; }
      ExpandLiteral(r[1..], before, after);
    }
  }

  lemma {:induction false} ReplaceFromIsSubstitute(s: string, i: nat, r: string)
    requires i <= |s|
    requires '$' !in r
    ensures ReplaceFrom(s, i, r) == Substitute(s[i..], r)
    decreases |s| - i
  {
    if i < |s| {
      assert MarkerAt(s, i) <==> Marker <= s[i..];
      if MarkerAt(s, i) {
        ExpandLiteral(r, s[..i], s[i + |Marker|..]);
        ReplaceFromIsSubstitute(s, i + |Marker|, r);
        assert s[i..][|Marker|..] == s[i + |Marker|..];
      } else {
        ReplaceFromIsSubstitute(s, i + 1, r);
        assert s[i..][1..] == s[i + 1..];
      }
    }
  }

  lemma {:induction false} ReplaceFromNoMarker(s: string, i: nat, r: string)
    requires i <= |s|
    ensures !HasMarker(s) ==> ReplaceFrom(s, i, r) == s[i..]
    decreases |s| - i
  {
    if i < |s| && !HasMarker(s) {
      assert !MarkerAt(s, i);
      ReplaceFromNoMarker(s, i + 1, r);
      assert s[i..] == [s[i]] + s[i + 1..];
    }
  }

  lemma {:induction false} SubstituteNoMarker(s: string, r: string)
    requires !HasMarker(s)
    ensures Substitute(s, r) == s
    decreases |s|
  {
    if s != [] {
      assert !MarkerAt(s, 0);
      assert !(Marker <= s);
      TailHasNoMarker(s);
      SubstituteNoMarker(s[1..], r);
    }
  }

  lemma TailHasNoMarker(s: string)
    requires s != [] && !HasMarker(s)
    ensures !HasMarker(s[1..])
  {
    forall i: nat
      ensures !MarkerAt(s[1..], i)
    {
      assert !MarkerAt(s, i + 1);
      if i + |Marker| <= |s[1..]| {
        assert s[1..][i..i + |Marker|] == s[i + 1..i + 1 + |Marker|];
      }
    }
  }

  /** A marker right after a marker-free prefix is the first one the substitution meets. */
  lemma {:induction false} SubstituteAfter(p: string, t: string, r: string)
    requires !HasMarker(p)
    ensures Substitute(p + Marker + t, r) == p + r + Substitute(t, r)
    decreases |p|
  {
    var s := p + Marker + t;
    if p == [] {
      assert s == Marker + t;
      assert s[|Marker|..] == t;
    } else {
      if |p| >= |Marker| {
        assert !MarkerAt(p, 0);
        assert s[..|Marker|] == p[..|Marker|];
      } else {
        assert s[|p|] == '$';
        assert s[..|Marker|][|p|] != Marker[|p|];
      }
      assert !(Marker <= s);
      TailHasNoMarker(p);
      assert s[1..] == p[1..] + Marker + t;
      SubstituteAfter(p[1..], t, r);
    }
  }

  /** Substituting into pieces joined by the marker joins them by the replacement. */
  lemma {:induction false} SubstituteJoin(pieces: seq<string>, r: string)
    requires forall k :: 0 <= k < |pieces| ==> !HasMarker(pieces[k])
    ensures Substitute(Join(pieces, Marker), r) == Join(pieces, r)
    decreases |pieces|
  {
    if |pieces| == 1 {
      SubstituteNoMarker(pieces[0], r);
    } else if |pieces| > 1 {
      SubstituteAfter(pieces[0], Join(pieces[1..], Marker), r);
      SubstituteJoin(pieces[1..], r);
    }
  }

  /**
   * The reference definition: for a replacement without a dollar sign,
   * `s.replace(/\$\{URL\}/g, r)` equals `s.split("${URL}").join(r)`.
   */
  lemma ReplaceIsSplitJoin(s: string, r: string)
    requires '$' !in r
    ensures Replace(s, r) == Join(Split(s), r)
  {
    SplitJoin(s);
    SubstituteJoin(Split(s), r);
  }

  /** A template made of a dollar-free text and one marker at its end, filled with a dollar-free replacement. */
  lemma ReplaceTrailingMarker(prefix: string, r: string)
    requires '$' !in prefix && '$' !in r
    ensures Replace(prefix + Marker, r) == prefix + r
  {
    NoDollarNoMarker(prefix);
    SubstituteAfter(prefix, [], r);
    assert prefix + Marker + [] == prefix + Marker;
  }

  /** A string without a dollar sign has no marker. */
  lemma NoDollarNoMarker(s: string)
    requires '$' !in s
    ensures !HasMarker(s)
  {
    forall i: nat
      ensures !MarkerAt(s, i)
    {
      if i + |Marker| <= |s| {
        assert s[i] in s;
        assert s[i..i + |Marker|][0] == s[i];
      }
    }
  }
}
