/** Splitting text on the blank-line record separator, as Rust's `str::split("\n\n")`. */
module Strings {

  /** The separator between event-stream records. */
  const Separator: string := "\n\n"

  /** `s` holds no two consecutive line feeds. */
  predicate NoSeparator(s: string)
  {
    forall i :: 0 <= i < |s| - 1 ==> !(s[i] == '\n' && s[i + 1] == '\n')
  }

  /**
   * The pieces of `s` between non-overlapping occurrences of the separator,
   * matched from the left; a separator at either end yields an empty piece,
   * and the empty string yields one empty piece.
   */
  function Split(s: string): (parts: seq<string>)
    ensures |parts| >= 1
    decreases |s|
  {
    if s == [] then [""]
    else if |s| >= 2 && s[0] == '\n' && s[1] == '\n' then [""] + Split(s[2..])
    else
      var rest := Split(s[1..]);
      [[s[0]] + rest[0]] + rest[1..]
  }

  /** The pieces put back together with the separator between them. */
  function Join(parts: seq<string>): string
    requires |parts| >= 1
  {
    if |parts| == 1 then parts[0] else parts[0] + Separator + Join(parts[1..])
  }

  /** Splitting loses nothing: joining the pieces gives back the text. */
  lemma {:induction false} JoinSplit(s: string)
    ensures Join(Split(s)) == s
    decreases |s|
  {
    if s == [] {
    } else if |s| >= 2 && s[0] == '\n' && s[1] == '\n' {
      var tail := Split(s[2..]);
      JoinSplit(s[2..]);
      assert Split(s) == [""] + tail;
      assert ([""] + tail)[1..] == tail;
      assert Join(Split(s)) == "" + Separator + Join(tail);
      assert s == Separator + s[2..];
    } else {
      var rest := Split(s[1..]);
      JoinSplit(s[1..]);
      JoinCons(s[0], rest);
      assert s == [s[0]] + s[1..];
    }
  }

  /** Putting a character in front of the first piece puts it in front of the joined text. */
  lemma {:induction false} JoinCons(c: char, parts: seq<string>)
    requires |parts| >= 1
    ensures Join([[c] + parts[0]] + parts[1..]) == [c] + Join(parts)
  {
    var moved := [[c] + parts[0]] + parts[1..];
    if |parts| > 1 {
      assert moved[1..] == parts[1..];
      var tail := Join(parts[1..]);
      calc {
        Join(moved);
        moved[0] + Separator + Join(moved[1..]);
        ([c] + parts[0]) + Separator + tail;
        [c] + (parts[0] + Separator + tail);
        [c] + Join(parts);
      }
    }
  }

  /** No piece contains the separator. */
  lemma {:induction false} SplitPartsHaveNoSeparator(s: string)
    ensures forall k :: 0 <= k < |Split(s)| ==> NoSeparator(Split(s)[k])
    decreases |s|
  {
    if s == [] {
    } else if |s| >= 2 && s[0] == '\n' && s[1] == '\n' {
      SplitPartsHaveNoSeparator(s[2..]);
      assert Split(s)[1..] == Split(s[2..]);
    } else {
      var rest := Split(s[1..]);
      SplitPartsHaveNoSeparator(s[1..]);
      SplitHeadHasNoLeadingFeed(s[1..]);
      var head := [s[0]] + rest[0];
      assert NoSeparator(head) by {
        forall i | 0 <= i < |head| - 1
          ensures !(head[i] == '\n' && head[i + 1] == '\n')
        {
          if i > 0 {
            assert head[i] == rest[0][i - 1] && head[i + 1] == rest[0][i];
          } else if s[0] == '\n' {
            assert |s| >= 2 && s[1] != '\n';
            assert rest[0] != [] && rest[0][0] == s[1];
          }
        }
      }
      assert Split(s)[1..] == rest[1..];
      forall k | 0 <= k < |Split(s)| ensures NoSeparator(Split(s)[k]) {
        if k > 0 { assert Split(s)[k] == rest[k]; }
      }
    }
  }

  /** The first piece starts where the text starts, up to the first separator. */
  lemma {:induction false} SplitHeadHasNoLeadingFeed(s: string)
    ensures s != [] && !(|s| >= 2 && s[0] == '\n' && s[1] == '\n') ==> Split(s)[0] != [] && Split(s)[0][0] == s[0]
  {
  }

  /** A piece free of the separator, not ending in a line feed, is split off whole. */
  lemma {:induction false} SplitAfterCleanPiece(a: string, b: string)
    requires NoSeparator(a)
    requires a == [] || a[|a| - 1] != '\n'
    ensures Split(a + Separator + b) == [a] + Split(b)
    decreases |a|
  {
    var s := a + Separator + b;
    if a == [] {
      assert s[2..] == b;
    } else {
      assert s[0] == a[0];
      if |a| >= 2 {
        assert s[1] == a[1];
        assert !(a[0] == '\n' && a[1] == '\n');
      } else {
        assert s[1] == '\n' && a[0] != '\n';
      }
      assert NoSeparator(a[1..]) by {
        forall i | 0 <= i < |a[1..]| - 1 ensures !(a[1..][i] == '\n' && a[1..][i + 1] == '\n') {
          assert a[1..][i] == a[i + 1] && a[1..][i + 1] == a[i + 2];
        }
      }
      assert s[1..] == a[1..] + Separator + b;
      SplitAfterCleanPiece(a[1..], b);
      assert [a[0]] + a[1..] == a;
    }
  }

  /**
   * Matching is leftmost: the first piece is the text up to, not including, the
   * first occurrence of the separator, or the whole text when it has none.
   */
  lemma {:induction false} SplitHeadEndsAtFirstSeparator(s: string)
    ensures |Split(s)[0]| <= |s| && s[..|Split(s)[0]|] == Split(s)[0]
    ensures forall k :: 0 <= k < |Split(s)[0]| && k + 1 < |s| ==> !(s[k] == '\n' && s[k + 1] == '\n')
    ensures |Split(s)| == 1 ==> Split(s)[0] == s
    ensures |Split(s)| > 1 ==> |Split(s)[0]| + 2 <= |s| && s[|Split(s)[0]|] == '\n' && s[|Split(s)[0]| + 1] == '\n'
    decreases |s|
  {
    if s == [] {
    } else if |s| >= 2 && s[0] == '\n' && s[1] == '\n' {
      assert Split(s) == [""] + Split(s[2..]);
    } else {
      var t := s[1..];
      var rest := Split(t);
      SplitHeadEndsAtFirstSeparator(t);
      var head := [s[0]] + rest[0];
      assert Split(s) == [head] + rest[1..];
      assert s[..|head|] == [s[0]] + t[..|rest[0]|];
      forall k | 0 <= k < |head| && k + 1 < |s| ensures !(s[k] == '\n' && s[k + 1] == '\n') {
        if k > 0 {
          assert s[k] == t[k - 1] && s[k + 1] == t[k];
        }
      }
      if |rest| > 1 {
        assert s[|head|] == t[|rest[0]|] && s[|head| + 1] == t[|rest[0]| + 1];
      } else {
        assert rest[0] == t;
        assert s == [s[0]] + t;
      }
    }
  }

  /** A text without the separator is one piece. */
  lemma SplitClean(s: string)
    requires NoSeparator(s)
    ensures Split(s) == [s]
  {
    SplitHeadEndsAtFirstSeparator(s);
  }
}
