/** The Python built-ins that the scraper and the résumé renderer lean on,
    stated over strings as sequences of Unicode code points: str.strip(),
    str.split(sep) for a one-character separator, str.startswith, the
    substring test `sub in s`, str.replace(target, "") and the two joins.
    List indexing past the end raises IndexError; Result carries that. */
module PyBuiltins {
  import opened Seqs

  datatype Option<+T> = None | Some(value: T)

  /** The outcome of a Python computation that may raise IndexError. */
  datatype Result<+T> = Ok(value: T) | IndexError

  /** str.isspace() for one code point: the characters str.strip() removes
      when called without arguments. */
  predicate IsSpace(c: char)
  {
    || c == ' '
    || '\t' <= c <= '\r'
    || '\U{1C}' <= c <= '\U{1F}'
    || c == '\U{85}' || c == '\U{A0}' || c == '\U{1680}'
    || '\U{2000}' <= c <= '\U{200A}'
    || c == '\U{2028}' || c == '\U{2029}' || c == '\U{202F}'
    || c == '\U{205F}' || c == '\U{3000}'
  }

  predicate AllSpace(s: string)
  {
    forall k :: 0 <= k < |s| ==> IsSpace(s[k])
  }

  /** How many whitespace characters `s` starts with. */
  function LeadingSpaces(s: string): (n: nat)
    ensures n <= |s|
  {
    if s != [] && IsSpace(s[0]) then 1 + LeadingSpaces(s[1..]) else 0
  }

  /** How many whitespace characters `s` ends with. */
  function TrailingSpaces(s: string): (n: nat)
    ensures n <= |s|
  {
    if s != [] && IsSpace(s[|s| - 1]) then 1 + TrailingSpaces(s[..|s| - 1]) else 0
  }

  /** str.lstrip(): drops the leading whitespace, keeps the rest. */
  function StripLeft(s: string): string
  {
    s[LeadingSpaces(s)..]
  }

  /** str.rstrip(): drops the trailing whitespace, keeps the rest. */
  function StripRight(s: string): string
  {
    s[..|s| - TrailingSpaces(s)]
  }

  /** str.strip(): what is left of `s` once the whitespace at both ends is
      gone (StripInfix states which infix that is). */
  function Strip(s: string): (r: string)
    ensures |r| <= |s|
  {
    StripRight(StripLeft(s))
  }

  /** str.startswith(prefix). */
  predicate StartsWith(s: string, prefix: string)
  {
    |prefix| <= |s| && s[..|prefix|] == prefix
  }

  /** The substring test `sub in s`. */
  predicate Contains(s: string, sub: string)
    decreases |s|
  {
    StartsWith(s, sub) || (s != [] && Contains(s[1..], sub))
  }

  /** str.split(sep) for a one-character separator: every piece is kept,
      empty ones included, so there is always at least one. */
  function Split(s: string, sep: char): (pieces: seq<string>)
    ensures |pieces| >= 1
  {
    if s == [] then [""]
    else
      var rest := Split(s[1..], sep);
      if s[0] == sep then [""] + rest else [[s[0]] + rest[0]] + rest[1..]
  }

  /** glue.join(parts). */
  function Join(parts: seq<string>, glue: string): string
  {
    if parts == [] then ""
    else if |parts| == 1 then parts[0]
    else parts[0] + glue + Join(parts[1..], glue)
  }

  /** "".join(parts), which is also what a loop of `text += part` builds. */
  function Concat(parts: seq<string>): string
  {
    if parts == [] then "" else parts[0] + Concat(parts[1..])
  }

  /** s.replace(target, ""): every non-overlapping occurrence of `target`,
      found left to right, is deleted. */
  function RemoveAll(s: string, target: string): (r: string)
    requires target != []
    ensures |r| <= |s|
    decreases |s|
  {
    if s == [] then []
    else if StartsWith(s, target) then RemoveAll(s[|target|..], target)
    else [s[0]] + RemoveAll(s[1..], target)
  }

  // ---------------------------------------------------------------------
  // Properties

  /** `sub in s` holds exactly when `sub` starts at some position of `s`. */
  lemma {:induction false} ContainsAt(s: string, sub: string)
    ensures Contains(s, sub) <==> exists i :: 0 <= i <= |s| && StartsWith(s[i..], sub)
    decreases |s|
  {
    if Contains(s, sub) {
      if StartsWith(s, sub) {
        assert s[0..] == s;
      } else {
        ContainsAt(s[1..], sub);
        var j :| 0 <= j <= |s[1..]| && StartsWith(s[1..][j..], sub);
        assert s[1..][j..] == s[j + 1..];
      }
    } else if s != [] {
      ContainsAt(s[1..], sub);
      forall i | 0 <= i <= |s| ensures !StartsWith(s[i..], sub) {
        if i == 0 {
          assert s[0..] == s;
        } else {
          assert s[1..][i - 1..] == s[i..];
        }
      }
    } else {
      forall i | 0 <= i <= |s| ensures !StartsWith(s[i..], sub) {
        assert s[i..] == s;
      }
    }
  }

  /** Joining the pieces of a split with the separator gives the string back. */
  lemma {:induction false} SplitJoin(s: string, sep: char)
    ensures Join(Split(s, sep), [sep]) == s
    decreases |s|
  {
    if s != [] {
      SplitJoin(s[1..], sep);
      var rest := Split(s[1..], sep);
      if s[0] != sep && |rest| > 1 {
        assert Join(rest, [sep]) == rest[0] + [sep] + Join(rest[1..], [sep]);
      }
    }
  }

  /** A split has one piece more than the string has separators. */
  lemma {:induction false} SplitCount(s: string, sep: char)
    ensures |Split(s, sep)| == multiset(s)[sep] + 1
    decreases |s|
  {
    if s != [] {
      SplitCount(s[1..], sep);
      assert s == [s[0]] + s[1..];
      assert multiset(s) == multiset([s[0]]) + multiset(s[1..]);
    }
  }

  /** No piece of a split contains the separator. */
  lemma {:induction false} SplitPiecesFree(s: string, sep: char)
    ensures forall p :: p in Split(s, sep) ==> sep !in p
    decreases |s|
  {
    if s != [] {
      SplitPiecesFree(s[1..], sep);
      var rest := Split(s[1..], sep);
      if s[0] != sep {
        assert rest[0] in rest;
        forall p | p in rest[1..] ensures p in rest { }
      }
    }
  }

  /** `s.split(sep)[0]` is the text before the first separator (all of `s`
      when there is none). */
  lemma {:induction false} SplitFirstPiece(s: string, sep: char)
    ensures var first := Split(s, sep)[0];
      && |first| <= |s|
      && first == s[..|first|]
      && sep !in first
      && (|first| < |s| ==> s[|first|] == sep)
    decreases |s|
  {
    if s != [] && s[0] != sep {
      SplitFirstPiece(s[1..], sep);
    }
  }

  /** After the first piece comes the first separator, and the remaining
      pieces are the split of what follows it. */
  lemma {:induction false} SplitTail(s: string, sep: char)
    requires sep in s
    ensures var p := |Split(s, sep)[0]|;
      && p < |s| && s[p] == sep
      && Split(s, sep)[1..] == Split(s[p + 1..], sep)
    decreases |s|
  {
    SplitFirstPiece(s, sep);
    var p := |Split(s, sep)[0]|;
    if s[0] != sep {
      var rest := Split(s[1..], sep);
      assert sep in s[1..] by {
        var j :| 0 <= j < |s| && s[j] == sep;
        assert s[1..][j - 1] == sep;
      }
      SplitTail(s[1..], sep);
      assert s[1..][|rest[0]| + 1..] == s[p + 1..];
    }
  }

  /** Indexing `s.split(sep)[1]` succeeds exactly when `sep` occurs in `s`. */
  lemma SplitHasSecond(s: string, sep: char)
    ensures |Split(s, sep)| >= 2 <==> sep in s
  {
    SplitCount(s, sep);
    assert sep in s <==> sep in multiset(s);
  }

  /** The pieces of a split, glued back with nothing between them, are the
      string with every separator deleted. */
  lemma {:induction false} ConcatSplit(s: string, sep: char)
    ensures Concat(Split(s, sep)) == RemoveAll(s, [sep])
    decreases |s|
  {
    if s != [] {
      ConcatSplit(s[1..], sep);
      var rest := Split(s[1..], sep);
      if s[0] != sep {
        assert Concat(rest) == rest[0] + Concat(rest[1..]);
        assert !StartsWith(s, [sep]);
      } else {
        assert StartsWith(s, [sep]);
      }
    }
  }

  /** "".join distributes over list concatenation. */
  lemma {:induction false} ConcatAppend(a: seq<string>, b: seq<string>)
    ensures Concat(a + b) == Concat(a) + Concat(b)
    decreases |a|
  {
    if a != [] {
      assert (a + b)[0] == a[0];
      assert (a + b)[1..] == a[1..] + b;
      ConcatAppend(a[1..], b);
      assert Concat(a + b) == a[0] + (Concat(a[1..]) + Concat(b));
    } else {
      assert a + b == b;
    }
  }

  /** replace(target, "") leaves a string without `target` unchanged. */
  lemma {:induction false} RemoveAbsent(s: string, target: string)
    requires target != []
    requires !Contains(s, target)
    ensures RemoveAll(s, target) == s
    decreases |s|
  {
    if s != [] {
      RemoveAbsent(s[1..], target);
    }
  }

  /** When `target` occurs only at the very start, replace(target, "")
      removes exactly that prefix. */
  lemma RemoveLeading(s: string, target: string)
    requires target != []
    requires StartsWith(s, target) && !Contains(s[|target|..], target)
    ensures RemoveAll(s, target) == s[|target|..]
  {
    RemoveAbsent(s[|target|..], target);
  }

  /** The leading whitespace is whitespace, and what follows it is not. */
  lemma {:induction false} LeadingSpacesSpec(s: string)
    ensures forall k :: 0 <= k < LeadingSpaces(s) ==> IsSpace(s[k])
    ensures LeadingSpaces(s) < |s| ==> !IsSpace(s[LeadingSpaces(s)])
    decreases |s|
  {
    if s != [] && IsSpace(s[0]) {
      LeadingSpacesSpec(s[1..]);
      forall k | 1 <= k < LeadingSpaces(s) ensures IsSpace(s[k]) {
        DropAt(s, 1, k - 1);
      }
      if LeadingSpaces(s) < |s| {
        DropAt(s, 1, LeadingSpaces(s) - 1);
      }
    }
  }

  /** The trailing whitespace is whitespace, and what precedes it is not. */
  lemma {:induction false} TrailingSpacesSpec(s: string)
    ensures forall k :: |s| - TrailingSpaces(s) <= k < |s| ==> IsSpace(s[k])
    ensures TrailingSpaces(s) < |s| ==> !IsSpace(s[|s| - TrailingSpaces(s) - 1])
    decreases |s|
  {
    if s != [] && IsSpace(s[|s| - 1]) {
      TrailingSpacesSpec(s[..|s| - 1]);
    }
  }

  /** str.strip() keeps the infix of `s` that starts where its leading
      whitespace ends. */
  lemma StripInfix(s: string)
    ensures LeadingSpaces(s) + |Strip(s)| <= |s|
    ensures Strip(s) == s[LeadingSpaces(s)..LeadingSpaces(s) + |Strip(s)|]
  {
    DropTake(s, LeadingSpaces(s), |Strip(s)|);
  }

  /** What str.strip() keeps starts and ends with a non-space. */
  lemma StripEnds(s: string)
    ensures Strip(s) != [] ==> !IsSpace(Strip(s)[0]) && !IsSpace(Strip(s)[|Strip(s)| - 1])
  {
    var i := LeadingSpaces(s);
    var r := Strip(s);
    LeadingSpacesSpec(s);
    TrailingSpacesSpec(s[i..]);
    if r != [] {
      DropAt(s, i, 0);
      DropAt(s, i, |r| - 1);
    }
  }

  /** What str.strip() removes is whitespace, at both ends. */
  lemma StripBorders(s: string)
    ensures forall k :: 0 <= k < LeadingSpaces(s) ==> IsSpace(s[k])
    ensures forall k :: LeadingSpaces(s) + |Strip(s)| <= k < |s| ==> IsSpace(s[k])
  {
    var i := LeadingSpaces(s);
    var left := s[i..];
    LeadingSpacesSpec(s);
    TrailingSpacesSpec(left);
    forall k | i + |Strip(s)| <= k < |s| ensures IsSpace(s[k]) {
      DropAt(s, i, k - i);
    }
  }

  /** A string strips to nothing exactly when it is all whitespace. */
  lemma StripEmpty(s: string)
    ensures Strip(s) == [] <==> AllSpace(s)
  {
    StripInfix(s);
    StripBorders(s);
    LeadingSpacesSpec(s);
  }

  /** Stripping twice is stripping once. */
  lemma StripIdempotent(s: string)
    ensures Strip(Strip(s)) == Strip(s)
  {
    var r := Strip(s);
    StripEnds(s);
    if r != [] {
      assert LeadingSpaces(r) == 0;
      DropNone(r);
      assert TrailingSpaces(r) == 0;
      TakeAll(r);
    }
  }
}
