/**
 * The string operations the application's code relies on, restricted to
 * what it uses: decimal `toString` of integers, ASCII `toLowerCase`,
 * `startsWith`, and `split`/`join` with a non-empty separator.
 */
module Text {

  predicate IsDigit(c: char) {
    '0' <= c <= '9'
  }

  function DigitChar(d: nat): (c: char)
    requires d < 10
    ensures IsDigit(c)
  {
    "0123456789"[d]
  }

  /** Decimal representation of a natural number, most significant digit first. */
  function NatToString(n: nat): (r: string)
    ensures r != []
    ensures forall i :: 0 <= i < |r| ==> IsDigit(r[i])
    decreases n
  {
    if n < 10 then [DigitChar(n)] else NatToString(n / 10) + [DigitChar(n % 10)]
  }

  /** `n.toString()` for an integer `n`. */
  function IntToString(n: int): (r: string)
    ensures r != []
    ensures n >= 0 <==> IsDigit(r[0])
  {
    if n < 0 then "-" + NatToString(-n) else NatToString(n)
  }

  predicate IsUpper(c: char) {
    'A' <= c <= 'Z'
  }

  function LowerChar(c: char): (l: char)
    ensures !IsUpper(l)
    ensures !IsUpper(c) ==> l == c
  {
    if IsUpper(c) then (c as int + ('a' as int - 'A' as int)) as char else c
  }

  /** `s.toLowerCase()`, for the ASCII letters. */
  function ToLower(s: string): (r: string)
    ensures |r| == |s|
    ensures forall i :: 0 <= i < |s| ==> r[i] == LowerChar(s[i])
    decreases |s|
  {
    if s == [] then [] else [LowerChar(s[0])] + ToLower(s[1..])
  }

  /** `a.toLowerCase() === b.toLowerCase()`. */
  predicate EqualsIgnoringCase(a: string, b: string) {
    ToLower(a) == ToLower(b)
  }

  /** `s.startsWith(prefix)`. */
  predicate StartsWith(s: string, prefix: string) {
    |prefix| <= |s| && s[..|prefix|] == prefix
  }

  /**
   * `s.split(sep)` for a non-empty separator: the pieces between the
   * occurrences of `sep`, found left to right without overlap.
   */
  function Split(s: string, sep: string): (r: seq<string>)
    requires sep != []
    ensures |r| >= 1
    decreases |s|
  {
    if |s| < |sep| then [s]
    else if s[..|sep|] == sep then [""] + Split(s[|sep|..], sep)
    else
      var rest := Split(s[1..], sep);
      [[s[0]] + rest[0]] + rest[1..]
  }

  /** `parts.join(sep)`. */
  function Join(parts: seq<string>, sep: string): string
    decreases |parts|
  {
    if parts == [] then ""
    else if |parts| == 1 then parts[0]
    else parts[0] + sep + Join(parts[1..], sep)
  }

  lemma {:induction false} JoinConsFirst(c: char, x: string, xs: seq<string>, sep: string)
    ensures Join([[c] + x] + xs, sep) == [c] + Join([x] + xs, sep)
  {
    assert ([[c] + x] + xs)[1..] == xs == ([x] + xs)[1..];
  }

  /** Joining the pieces of a split with the same separator gives back the string. */
  lemma {:induction false} JoinSplit(s: string, sep: string)
    requires sep != []
    ensures Join(Split(s, sep), sep) == s
    decreases |s|
  {
    if |s| < |sep| {
    } else if s[..|sep|] == sep {
      JoinSplit(s[|sep|..], sep);
      var rest := Split(s[|sep|..], sep);
      assert ([""] + rest)[1..] == rest;
      assert s == sep + s[|sep|..];
    } else {
      JoinSplit(s[1..], sep);
      var rest := Split(s[1..], sep);
      assert [rest[0]] + rest[1..] == rest;
      JoinConsFirst(s[0], rest[0], rest[1..], sep);
      assert s == [s[0]] + s[1..];
    }
  }

  /** A string in which the separator's first character never occurs is not split. */
  lemma {:induction false} SplitWithoutSeparator(x: string, sep: string)
    requires sep != [] && sep[0] !in x
    ensures Split(x, sep) == [x]
    decreases |x|
  {
    if |x| >= |sep| {
      assert x[..|sep|][0] == x[0];
      SplitWithoutSeparator(x[1..], sep);
      assert [x[0]] + x[1..] == x;
    }
  }

  /** The first piece of `x + sep + y` is `x` when `x` holds no character starting `sep`. */
  lemma {:induction false} SplitAtFirstSeparator(x: string, sep: string, y: string)
    requires sep != [] && sep[0] !in x
    ensures Split(x + sep + y, sep) == [x] + Split(y, sep)
    decreases |x|
  {
    var s := x + sep + y;
    if x == [] {
      assert s[..|sep|] == sep && s[|sep|..] == y;
    } else {
      assert s[..|sep|][0] == x[0];
      assert s[1..] == x[1..] + sep + y;
      SplitAtFirstSeparator(x[1..], sep, y);
      assert [x[0]] + x[1..] == x;
    }
  }

  /** Appending a piece to a non-empty list appends the separator and the piece to the join. */
  lemma {:induction false} JoinAppend(xs: seq<string>, y: string, sep: string)
    requires xs != []
    ensures Join(xs + [y], sep) == Join(xs, sep) + sep + y
    decreases |xs|
  {
    if |xs| == 1 {
      assert xs + [y] == [xs[0], y];
      assert [xs[0], y][1..] == [y];
    } else {
      assert (xs + [y])[1..] == xs[1..] + [y];
      JoinAppend(xs[1..], y, sep);
    }
  }

  /** Putting a piece in front of a non-empty list puts it and the separator in front of the join. */
  lemma JoinCons(x: string, xs: seq<string>, sep: string)
    requires xs != []
    ensures Join([x] + xs, sep) == x + sep + Join(xs, sep)
  {
    assert ([x] + xs)[1..] == xs;
  }

  /**
   * Splitting joined pieces that hold no character starting the separator
   * gives those pieces back, followed by the split of whatever was joined
   * after them.
   */
  lemma {:induction false} SplitJoinedPrefix(xs: seq<string>, ys: seq<string>, sep: string)
    requires sep != [] && ys != []
    requires forall i :: 0 <= i < |xs| ==> sep[0] !in xs[i]
    ensures Split(Join(xs + ys, sep), sep) == xs + Split(Join(ys, sep), sep)
    decreases |xs|
  {
    if xs != [] {
      var x, more := xs[0], xs[1..];
      var rest := Join(more + ys, sep);
      calc {
        Split(Join(xs + ys, sep), sep);
      == { assert xs + ys == [x] + (more + ys); JoinCons(x, more + ys, sep); }
        Split(x + sep + rest, sep);
      == { SplitAtFirstSeparator(x, sep, rest); }
        [x] + Split(rest, sep);
      == { assert forall i :: 0 <= i < |more| ==> more[i] == xs[i + 1];
           SplitJoinedPrefix(more, ys, sep); }
        [x] + (more + Split(Join(ys, sep), sep));
      == { assert xs == [x] + more; }
        xs + Split(Join(ys, sep), sep);
      }
    } else {
      assert xs + ys == ys;
    }
  }
}
