/** Value types shared by the models of the evaluation core: the optional
    value, the outcome of one sandboxed execution and the score modes of a
    subtask. */
module Common {

  datatype Option<T> = None | Some(value: T)

  /** A value, or the message of the exception raised instead. */
  datatype Result<T> = Ok(value: T) | Err(error: string)

  /** The statuses an execution result can carry (the frontend's ResultStatus). */
  datatype ResultStatus =
    | Success
    | Signal
    | ReturnCode
    | TimeLimit
    | WallLimit
    | MemoryLimit
    | MissingFiles
    | InternalError
    | InvalidRequest

  /** The outcome of one execution, as the frontend reports it. The name of
      the signal is taken as given, not computed from the number. */
  datatype ExecResult = ExecResult(
    status: ResultStatus,
    signal: int,
    signalName: string,
    returnCode: int,
    wasKilled: bool,
    error: string)

  /** How the testcase scores of a subtask are combined. */
  datatype ScoreMode = Min | Max | Sum

  /** The text of one decimal digit. */
  function DigitChar(d: nat): (c: char)
    requires d < 10
    ensures '0' <= c <= '9'
  {
    ('0' as int + d) as char
  }

  /** The decimal representation of a natural number, as `%d` prints it. */
  function NatToString(n: nat): (s: string)
    ensures |s| > 0
    ensures forall i :: 0 <= i < |s| ==> '0' <= s[i] <= '9'
    decreases n
  {
    if n < 10 then [DigitChar(n)] else NatToString(n / 10) + [DigitChar(n % 10)]
  }

  /** The decimal representation of an integer, with a leading '-' when negative. */
  function IntToString(n: int): (s: string)
    ensures |s| > 0
    ensures (s[0] == '-') <==> n < 0
  {
    if n < 0 then "-" + NatToString(-n) else NatToString(n)
  }

  /** Distinct natural numbers have distinct decimal texts. */
  lemma {:induction false} NatToStringInjective(a: nat, b: nat)
    ensures NatToString(a) == NatToString(b) ==> a == b
    decreases a
  {
    var sa, sb := NatToString(a), NatToString(b);
    if sa == sb {
      if a >= 10 {
        assert |NatToString(a / 10)| > 0;
      }
      if b >= 10 {
        assert |NatToString(b / 10)| > 0;
      }
      if a >= 10 && b >= 10 {
        var pa, pb := NatToString(a / 10), NatToString(b / 10);
        assert pa == sa[..|sa| - 1] && pb == sb[..|sb| - 1];
        NatToStringInjective(a / 10, b / 10);
        assert DigitChar(a % 10) == sa[|sa| - 1] == DigitChar(b % 10);
      } else if a < 10 && b < 10 {
        assert sa[0] == sb[0];
      }
    }
  }

  /** Distinct integers have distinct decimal texts. */
  lemma IntToStringInjective(a: int, b: int)
    ensures IntToString(a) == IntToString(b) ==> a == b
  {
    if IntToString(a) == IntToString(b) {
      if a < 0 && b < 0 {
        assert NatToString(-a) == IntToString(a)[1..];
        assert NatToString(-b) == IntToString(b)[1..];
        NatToStringInjective(-a, -b);
      } else if a >= 0 && b >= 0 {
        NatToStringInjective(a, b);
      }
    }
  }

  /** The prefix of length `i + 1` is the prefix of length `i` and one more. */
  lemma PrefixSnoc<T>(xs: seq<T>, i: int)
    requires 0 <= i < |xs|
    ensures xs[..i + 1] == xs[..i] + [xs[i]]
  {
  }

  /** A prefix and the matching suffix make up the sequence. */
  lemma PrefixSuffix<T>(xs: seq<T>, i: int)
    requires 0 <= i <= |xs|
    ensures xs[..i] + xs[i..] == xs && xs[..|xs|] == xs
  {
  }

  /** Appending one element leaves the old sequence as the prefix. */
  lemma SnocPrefix<T>(xs: seq<T>, x: T)
    ensures (xs + [x])[..|xs|] == xs
  {
  }

  /** A non-empty sequence is its prefix and its last element. */
  lemma InitLast<T>(xs: seq<T>)
    requires xs != []
    ensures xs == xs[..|xs| - 1] + [xs[|xs| - 1]]
  {
  }

  /** A prefix stays a prefix when the longer sequence grows. */
  lemma PrefixAppend<T>(a: seq<T>, b: seq<T>, c: seq<T>)
    requires a <= b
    ensures a <= b + c
  {
    assert (b + c)[..|a|] == b[..|a|];
  }

  /** The prefix of length `j` of the prefix of length `j + 1`. */
  lemma PrefixOfPrefix<T>(xs: seq<T>, j: int)
    requires 0 <= j < |xs|
    ensures xs[..j + 1][..j] == xs[..j]
  {
  }

  lemma ConcatAssoc<T>(a: seq<T>, b: seq<T>, c: seq<T>)
    ensures (a + b) + c == a + (b + c)
  {
  }

  /** The ids of the values of a map held as a list of pairs, in order;
      `id` reads the id of one value. */
  function Ids<K, V>(m: seq<(K, V)>, id: V -> int): (r: seq<int>)
    ensures |r| == |m|
    ensures forall i :: 0 <= i < |m| ==> r[i] == id(m[i].1)
  {
    if m == [] then [] else [id(m[0].1)] + Ids(m[1..], id)
  }

  /** No two entries of a list are equal. */
  predicate Distinct<T(==)>(xs: seq<T>) {
    forall i, j :: 0 <= i < j < |xs| ==> xs[i] != xs[j]
  }

  // ---------------------------------------------------------------------------
  // Whitespace, as Python's string methods see it

  /** Python's `str.isspace()` for one character: the ASCII controls \t to \r
      and \x1c to \x1f, the space, and the Unicode whitespace characters
      (NEL, NO-BREAK SPACE, the Zs spaces and the line and paragraph
      separators). */
  predicate IsSpace(c: char) {
    || ('\t' <= c <= '\r') || ('\U{1C}' <= c <= ' ')
    || c == '\U{85}' || c == '\U{A0}' || c == '\U{1680}'
    || ('\U{2000}' <= c <= '\U{200A}') || c == '\U{2028}' || c == '\U{2029}'
    || c == '\U{202F}' || c == '\U{205F}' || c == '\U{3000}'
  }

  /** Python's `str.lstrip()`: the suffix left once leading whitespace is removed. */
  function LStrip(s: string): (r: string)
    ensures |r| <= |s|
    ensures r == [] || !IsSpace(r[0])
  {
    if s != [] && IsSpace(s[0]) then LStrip(s[1..]) else s
  }

  /** Python's `str.rstrip()`: the prefix left once trailing whitespace is removed. */
  function RStrip(s: string): (r: string)
    ensures |r| <= |s| && r == s[..|r|]
    ensures r == [] || !IsSpace(r[|r| - 1])
  {
    if s != [] && IsSpace(s[|s| - 1]) then RStrip(s[..|s| - 1]) else s
  }

  /** Only whitespace is removed: what `LStrip` and `RStrip` drop is all whitespace. */
  lemma {:induction false} StripDropsOnlySpace(s: string)
    ensures forall i :: 0 <= i < |s| - |LStrip(s)| ==> IsSpace(s[i])
    ensures forall i :: |RStrip(s)| <= i < |s| ==> IsSpace(s[i])
    decreases |s|
  {
    if s != [] && IsSpace(s[0]) {
      StripDropsOnlySpace(s[1..]);
      assert forall i :: 1 <= i < |s| ==> s[i] == s[1..][i - 1];
    }
    if s != [] && IsSpace(s[|s| - 1]) {
      StripDropsOnlySpace(s[..|s| - 1]);
      assert forall i :: 0 <= i < |s| - 1 ==> s[i] == s[..|s| - 1][i];
    }
  }

  /** What `LStrip` leaves is the input from its first non-whitespace character on. */
  lemma {:induction false} LStripSuffix(s: string)
    ensures LStrip(s) == s[|s| - |LStrip(s)|..]
    decreases |s|
  {
    if s != [] && IsSpace(s[0]) {
      LStripSuffix(s[1..]);
      assert s[1..][|s| - 1 - |LStrip(s)|..] == s[|s| - |LStrip(s)|..];
    }
  }

  /** Python's `str.strip()`: no whitespace left at either end. */
  function Strip(s: string): (r: string)
    ensures r == [] || (!IsSpace(r[0]) && !IsSpace(r[|r| - 1]))
    ensures |r| <= |s|
  {
    RStrip(LStrip(s))
  }

  /** What `Strip` leaves is one slice `s[i..j]` of its input, and everything
      outside the slice is whitespace. */
  lemma StripSlice(s: string)
    ensures var i := |s| - |LStrip(s)|; var j := i + |Strip(s)|;
            && 0 <= i <= j <= |s| && Strip(s) == s[i..j]
            && (forall k :: 0 <= k < i ==> IsSpace(s[k]))
            && (forall k :: j <= k < |s| ==> IsSpace(s[k]))
  {
    var t := LStrip(s);
    var i := |s| - |t|;
    LStripSuffix(s);
    StripDropsOnlySpace(s);
    StripDropsOnlySpace(t);
    assert Strip(s) == RStrip(t) == t[..|RStrip(t)|];
    forall k | i + |Strip(s)| <= k < |s| ensures IsSpace(s[k]) {
      assert s[k] == t[k - i];
    }
  }
}
