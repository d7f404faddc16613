/**
 * The few string operations `translate.rb` performs with regular
 * expressions, written out as explicit functions on `seq<char>`:
 * removing a fixed prefix or suffix once, testing whether a fixed word
 * occurs, splitting on either of the separators "_and_" and "_or_",
 * joining with a separator, the blank test and a one-character
 * substitution.
 * Line breaks are not given a meaning of their own: `^` and `$` are read
 * as the start and the end of the string.
 */
module Text {
  import opened Wrappers

  const AND_SEPARATOR: string := "_and_"
  const OR_SEPARATOR: string := "_or_"

  predicate IsPrefix(p: string, s: string) {
    |p| <= |s| && s[..|p|] == p
  }

  predicate IsSuffix(p: string, s: string) {
    |p| <= |s| && s[|s| - |p|..] == p
  }

  /** Removes `prefix` once, and only when `s` starts with it. */
  function StripPrefix(s: string, prefix: string): (r: string)
    ensures IsPrefix(prefix, s) ==> prefix + r == s
    ensures !IsPrefix(prefix, s) ==> r == s
  {
    if IsPrefix(prefix, s) then
      assert s == s[..|prefix|] + s[|prefix|..];
      s[|prefix|..]
    else s
  }

  /** Removes `suffix` once, and only when `s` ends with it. */
  function StripSuffix(s: string, suffix: string): (r: string)
    ensures IsSuffix(suffix, s) ==> r + suffix == s
    ensures !IsSuffix(suffix, s) ==> r == s
  {
    if IsSuffix(suffix, s) then
      assert s == s[..|s| - |suffix|] + s[|s| - |suffix|..];
      s[..|s| - |suffix|]
    else s
  }

  /** `t` occurs in `s` starting at index `i`. */
  predicate OccursAt(s: string, t: string, i: nat) {
    i + |t| <= |s| && s[i..i + |t|] == t
  }

  /** Whether the literal word `t` occurs somewhere in `s`, scanning from the left. */
  predicate Contains(s: string, t: string)
    decreases |s|
  {
    IsPrefix(t, s) || (|s| > 0 && Contains(s[1..], t))
  }

  lemma {:induction false} ContainsIff(s: string, t: string)
    ensures Contains(s, t) <==> exists i: nat :: OccursAt(s, t, i)
    decreases |s|
  {
    if IsPrefix(t, s) {
      assert OccursAt(s, t, 0);
    } else if |s| == 0 {
      assert |t| > 0;
    } else {
      ContainsIff(s[1..], t);
      if Contains(s[1..], t) {
        var i: nat :| OccursAt(s[1..], t, i);
        assert s[1..][i..i + |t|] == s[i + 1..i + 1 + |t|];
        assert OccursAt(s, t, i + 1);
      } else {
        forall i: nat ensures !OccursAt(s, t, i) {
          if OccursAt(s, t, i) {
            if i > 0 {
              var j: nat := i - 1;
              assert s[1..][j..j + |t|] == s[i..i + |t|];
              assert OccursAt(s[1..], t, j);
            }
          }
        }
      }
    }
  }

  /**
   * The separator ("_and_" or "_or_") that matches at the very start of `s`,
   * trying "_and_" first and "_or_" second.
   */
  function LeadingSeparator(s: string): (r: Option<string>)
    ensures r.Some? ==> (r.value == AND_SEPARATOR || r.value == OR_SEPARATOR) && IsPrefix(r.value, s)
    ensures r.None? ==> !IsPrefix(AND_SEPARATOR, s) && !IsPrefix(OR_SEPARATOR, s)
  {
    if IsPrefix(AND_SEPARATOR, s) then Some(AND_SEPARATOR)
    else if IsPrefix(OR_SEPARATOR, s) then Some(OR_SEPARATOR)
    else None
  }

  /**
   * Every piece between the leftmost, non-overlapping separator matches of
   * `s`, empty pieces included; the first piece is a prefix of `s`.
   */
  function Pieces(s: string): (r: seq<string>)
    ensures |r| >= 1 && IsPrefix(r[0], s)
    decreases |s|
  {
    if s == [] then [""]
    else match LeadingSeparator(s)
      case Some(sep) => [""] + Pieces(s[|sep|..])
      case None =>
        var rest := Pieces(s[1..]);
        assert s[1..][..|rest[0]|] == rest[0];
        assert ([s[0]] + rest[0]) == s[..|rest[0]| + 1];
        [[s[0]] + rest[0]] + rest[1..]
  }

  /** The separators matched in `s`, in the order in which they occur. */
  function Separators(s: string): (r: seq<string>)
    decreases |s|
  {
    if s == [] then []
    else match LeadingSeparator(s)
      case Some(sep) => [sep] + Separators(s[|sep|..])
      case None => Separators(s[1..])
  }

  /** Pieces with separators put back between them. */
  function Rejoin(pieces: seq<string>, separators: seq<string>): string
    requires |pieces| == |separators| + 1
    decreases |separators|
  {
    if separators == [] then pieces[0]
    else pieces[0] + separators[0] + Rejoin(pieces[1..], separators[1..])
  }

  /** Drops the empty strings at the end of `xs` (and only there). */
  function DropTrailingEmpty(xs: seq<string>): (r: seq<string>)
    ensures |r| <= |xs| && r == xs[..|r|]
    ensures forall i | |r| <= i < |xs| :: xs[i] == ""
    ensures r != [] ==> r[|r| - 1] != ""
    decreases |xs|
  {
    if xs == [] then []
    else if xs[|xs| - 1] == "" then DropTrailingEmpty(xs[..|xs| - 1])
    else xs
  }

  /**
   * The pieces of `s` between the "_and_" and "_or_" separators, with the
   * trailing empty pieces dropped (so the empty string has no pieces).
   */
  function Split(s: string): (r: seq<string>)
    ensures s == "" ==> r == []
    ensures |r| <= |Pieces(s)| && r == Pieces(s)[..|r|] && forall i | |r| <= i < |Pieces(s)| :: Pieces(s)[i] == ""
    ensures r != [] ==> r[|r| - 1] != ""
  {
    DropTrailingEmpty(Pieces(s))
  }

  /** The elements of `xs` with `separator` between each two neighbours. */
  function Join(xs: seq<string>, separator: string): string
    decreases |xs|
  {
    if xs == [] then ""
    else if |xs| == 1 then xs[0]
    else xs[0] + separator + Join(xs[1..], separator)
  }

  /**
   * No elements join to the empty string and one to itself; otherwise the
   * first element and the separator start the result and the last element ends it.
   */
  lemma {:induction false} JoinEnds(xs: seq<string>, separator: string)
    ensures xs == [] ==> Join(xs, separator) == ""
    ensures |xs| == 1 ==> Join(xs, separator) == xs[0]
    ensures |xs| > 0 ==> IsPrefix(xs[0], Join(xs, separator)) && IsSuffix(xs[|xs| - 1], Join(xs, separator))
    ensures |xs| > 1 ==> IsPrefix(xs[0] + separator, Join(xs, separator))
    decreases |xs|
  {
    if |xs| > 1 {
      JoinEnds(xs[1..], separator);
      var rest := Join(xs[1..], separator);
      var r := xs[0] + separator + rest;
      var last := xs[|xs| - 1];
      assert xs[1..][|xs[1..]| - 1] == last;
      assert r[..|xs[0] + separator|] == xs[0] + separator;
      assert r[..|xs[0]|] == xs[0];
      assert r[|r| - |last|..] == rest[|rest| - |last|..];
    }
  }

  /** Joining one more element appends the separator and that element. */
  lemma {:induction false} JoinSnoc(xs: seq<string>, x: string, separator: string)
    requires xs != []
    ensures Join(xs + [x], separator) == Join(xs, separator) + separator + x
    decreases |xs|
  {
    var ys := xs + [x];
    assert ys[0] == xs[0];
    if |xs| == 1 {
      assert ys[1..] == [x];
    } else {
      assert ys[1..] == xs[1..] + [x];
      JoinSnoc(xs[1..], x, separator);
    }
  }

  /** Joining puts the separator between each two elements and nowhere else. */
  lemma {:induction false} JoinRejoin(xs: seq<string>, separator: string)
    requires xs != []
    ensures Join(xs, separator) == Rejoin(xs, seq(|xs| - 1, _ => separator))
    decreases |xs|
  {
    var seps := seq(|xs| - 1, _ => separator);
    if |xs| > 1 {
      JoinRejoin(xs[1..], separator);
      assert seps[0] == separator;
      assert seps[1..] == seq(|xs[1..]| - 1, _ => separator);
    }
  }

  predicate IsWhitespace(c: char) {
    c == ' ' || c == '\t' || c == '\n' || c == '\r' || c == '\U{000C}' || c == '\U{000B}'
  }

  /** Empty or made of whitespace only. */
  predicate IsBlank(s: string) {
    forall i | 0 <= i < |s| :: IsWhitespace(s[i])
  }

  /** Every occurrence of the character `from` replaced by `to`. */
  function Tr(s: string, from: char, to: char): (r: string)
    ensures |r| == |s|
    ensures forall i | 0 <= i < |s| :: r[i] == (if s[i] == from then to else s[i])
    decreases |s|
  {
    if s == [] then []
    else [if s[0] == from then to else s[0]] + Tr(s[1..], from, to)
  }

  /** Putting the matched separators back between the pieces gives the string again. */
  lemma {:induction false} PiecesRoundTrip(s: string)
    ensures |Pieces(s)| == |Separators(s)| + 1
    ensures Rejoin(Pieces(s), Separators(s)) == s
    decreases |s|
  {
    if s != [] {
      match LeadingSeparator(s)
      case Some(sep) =>
        PiecesRoundTrip(s[|sep|..]);
        var ps, ss := Pieces(s[|sep|..]), Separators(s[|sep|..]);
        assert ([""] + ps)[1..] == ps && ([sep] + ss)[1..] == ss;
        assert s == sep + s[|sep|..];
      case None =>
        PiecesRoundTrip(s[1..]);
        var ps, ss := Pieces(s[1..]), Separators(s[1..]);
        RejoinConsHead([s[0]], ps, ss);
        assert s == [s[0]] + s[1..];
    }
  }

  lemma {:induction false} RejoinConsHead(c: string, ps: seq<string>, ss: seq<string>)
    requires |ps| == |ss| + 1
    ensures Rejoin([c + ps[0]] + ps[1..], ss) == c + Rejoin(ps, ss)
  {
    var qs := [c + ps[0]] + ps[1..];
    if ss != [] {
      assert qs[1..] == ps[1..];
    }
  }

  /** No piece contains either separator: every occurrence was split on. */
  lemma {:induction false} PiecesHaveNoSeparator(s: string)
    ensures forall p | p in Pieces(s) :: !Contains(p, AND_SEPARATOR) && !Contains(p, OR_SEPARATOR)
    decreases |s|
  {
    if s != [] {
      match LeadingSeparator(s)
      case Some(sep) =>
        PiecesHaveNoSeparator(s[|sep|..]);
        assert !Contains("", AND_SEPARATOR) && !Contains("", OR_SEPARATOR);
      case None =>
        var rest := Pieces(s[1..]);
        PiecesHaveNoSeparator(s[1..]);
        var head := [s[0]] + rest[0];
        assert head[1..] == rest[0];
        assert Pieces(s) == [head] + rest[1..];
        assert !IsPrefix(AND_SEPARATOR, head) by {
          if IsPrefix(AND_SEPARATOR, head) { PrefixOfPrefix(AND_SEPARATOR, head, s); }
        }
        assert !IsPrefix(OR_SEPARATOR, head) by {
          if IsPrefix(OR_SEPARATOR, head) { PrefixOfPrefix(OR_SEPARATOR, head, s); }
        }
        forall p | p in Pieces(s) ensures !Contains(p, AND_SEPARATOR) && !Contains(p, OR_SEPARATOR) {
          if p != head {
            assert p in rest;
          }
        }
    }
  }

  lemma PrefixOfPrefix(a: string, b: string, c: string)
    requires IsPrefix(a, b) && IsPrefix(b, c)
    ensures IsPrefix(a, c)
  {
    assert c[..|a|] == c[..|b|][..|a|];
  }

  /** No token of the split contains either separator. */
  lemma SplitHasNoSeparator(s: string)
    ensures forall t | t in Split(s) :: !Contains(t, AND_SEPARATOR) && !Contains(t, OR_SEPARATOR)
  {
    PiecesHaveNoSeparator(s);
    var ps := Pieces(s);
    var r := Split(s);
    forall t | t in r ensures t in ps {
      var k :| 0 <= k < |r| && r[k] == t;
      assert ps[..|r|][k] == t;
    }
  }

  /** Ruby's split of a string without separators is that string alone (none, when empty). */
  lemma {:induction false} SplitWithoutSeparator(s: string)
    requires !Contains(s, AND_SEPARATOR) && !Contains(s, OR_SEPARATOR)
    ensures Split(s) == if s == "" then [] else [s]
  {
    PiecesWithoutSeparator(s);
  }

  lemma {:induction false} PiecesWithoutSeparator(s: string)
    requires !Contains(s, AND_SEPARATOR) && !Contains(s, OR_SEPARATOR)
    ensures Pieces(s) == [s]
    decreases |s|
  {
    if s != [] {
      assert !IsPrefix(AND_SEPARATOR, s) && !IsPrefix(OR_SEPARATOR, s);
      PiecesWithoutSeparator(s[1..]);
      assert [s[0]] + s[1..] == s;
    }
  }

  /** A separator ("_and_" or "_or_") occurs in `s` at index `i`. */
  predicate SeparatorAt(s: string, i: nat) {
    OccursAt(s, AND_SEPARATOR, i) || OccursAt(s, OR_SEPARATOR, i)
  }

  lemma OccursAtIsPrefix(s: string, t: string, i: nat)
    requires i <= |s|
    ensures OccursAt(s, t, i) <==> IsPrefix(t, s[i..])
  {
    if i + |t| <= |s| {
      assert s[i..][..|t|] == s[i..i + |t|];
    }
  }

  lemma SeparatorAtLeading(s: string, i: nat)
    requires i <= |s|
    ensures SeparatorAt(s, i) <==> LeadingSeparator(s[i..]).Some?
  {
    OccursAtIsPrefix(s, AND_SEPARATOR, i);
    OccursAtIsPrefix(s, OR_SEPARATOR, i);
  }

  lemma SeparatorAtTail(s: string, i: nat)
    requires |s| > 0
    ensures SeparatorAt(s, i + 1) <==> SeparatorAt(s[1..], i)
  {
    if i + 1 + |AND_SEPARATOR| <= |s| {
      assert s[1..][i..i + |AND_SEPARATOR|] == s[i + 1..i + 1 + |AND_SEPARATOR|];
    }
    if i + 1 + |OR_SEPARATOR| <= |s| {
      assert s[1..][i..i + |OR_SEPARATOR|] == s[i + 1..i + 1 + |OR_SEPARATOR|];
    }
  }

  /** The split matches leftmost first: no separator occurs inside the first piece. */
  lemma {:induction false} PiecesHeadBeforeSeparators(s: string)
    ensures forall i: nat | i < |Pieces(s)[0]| :: !SeparatorAt(s, i)
    decreases |s|
  {
    if s != [] && LeadingSeparator(s).None? {
      var rest := Pieces(s[1..]);
      PiecesHeadBeforeSeparators(s[1..]);
      var head := [s[0]] + rest[0];
      assert Pieces(s)[0] == head;
      forall i: nat | i < |head| ensures !SeparatorAt(s, i) {
        if i == 0 {
          SeparatorAtLeading(s, 0);
          assert s[0..] == s;
        } else {
          SeparatorAtTail(s, i - 1);
        }
      }
    }
  }

  /** A first piece that is the whole string is the only piece. */
  lemma {:induction false} PiecesWhole(s: string)
    ensures |Pieces(s)[0]| == |s| ==> Pieces(s) == [s]
    decreases |s|
  {
    if s != [] && LeadingSeparator(s).None? {
      var rest := Pieces(s[1..]);
      PiecesWhole(s[1..]);
      assert Pieces(s) == [[s[0]] + rest[0]] + rest[1..];
      if |Pieces(s)[0]| == |s| {
        assert rest == [s[1..]];
        assert [s[0]] + s[1..] == s;
      }
    }
  }

  /**
   * The split matches leftmost first: a first piece shorter than the string
   * ends where a separator occurs, and the remaining pieces are the split of
   * what follows the separator matched there.
   */
  lemma {:induction false} PiecesAfterFirstSeparator(s: string)
    ensures var head := Pieces(s)[0];
            |head| < |s| ==>
              && SeparatorAt(s, |head|)
              && LeadingSeparator(s[|head|..]).Some?
              && Pieces(s)[1..] == Pieces(s[|head| + |LeadingSeparator(s[|head|..]).value|..])
    decreases |s|
  {
    if s != [] {
      SeparatorAtLeading(s, 0);
      assert s[0..] == s;
      if LeadingSeparator(s).None? {
        var rest := Pieces(s[1..]);
        PiecesAfterFirstSeparator(s[1..]);
        var head := [s[0]] + rest[0];
        assert Pieces(s) == [head] + rest[1..];
        if |head| < |s| {
          SeparatorAtTail(s, |rest[0]|);
          assert s[|head|..] == s[1..][|rest[0]|..];
          var sep := LeadingSeparator(s[|head|..]).value;
          assert s[|head| + |sep|..] == s[1..][|rest[0]| + |sep|..];
        }
      }
    }
  }
}
