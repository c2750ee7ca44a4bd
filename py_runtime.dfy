/**
 * The slice of the Python runtime that the `one_task` decorator relies on:
 * the values a keyword argument can carry, truthiness, iteration by a `for`
 * loop, `str.replace` of one character, `str.split('\n')[0]`, `str.strip()`
 * and the text `"%s"` produces with `str()`.
 */
module PyRuntime {

  datatype Option<T> = None | Some(value: T)

  /** The exceptions the decorator can raise. */
  datatype PyError = TypeError | AttributeError

  datatype Result<T> = Ok(value: T) | Err(error: PyError)

  /** A Python function object, seen only through `__name__` and `__doc__`. */
  datatype PyFunction = PyFunction(name: string, doc: Option<string>)

  /** The values a keyword argument (and so a task-dict entry) can hold. */
  datatype Value =
    | VNone
    | VBool(b: bool)
    | VInt(i: int)
    | VStr(s: string)
    | VList(items: seq<Value>)
    | VFunc(f: PyFunction)

  /** Python truthiness, as `if v:` decides it: the falsy values are
      exactly `None`, `False`, `0`, `''` and `[]`. */
  predicate Truthy(v: Value)
    ensures !Truthy(v) <==> v == VNone || v == VBool(false) || v == VInt(0) || v == VStr([]) || v == VList([])
  {
    match v
    case VNone => false
    case VBool(b) => b
    case VInt(i) => i != 0
    case VStr(s) => s != ""
    case VList(xs) => xs != []
    case VFunc(_) => true
  }

  /** What `for x in v` walks over: the items of a list, the one-character
      strings of a string; any other value is not iterable. */
  function Iterate(v: Value): (r: Result<seq<Value>>)
    ensures r.Err? <==> !(v.VStr? || v.VList?)
    ensures r.Err? ==> r.error == TypeError
    ensures v.VList? ==> r == Ok(v.items)
    ensures v.VStr? ==> |r.value| == |v.s| && forall i :: 0 <= i < |v.s| ==> r.value[i] == VStr([v.s[i]])
  {
    match v
    case VStr(s) => Ok(seq(|s|, i requires 0 <= i < |s| => VStr([s[i]])))
    case VList(xs) => Ok(xs)
    case _ => Err(TypeError)
  }

  /** `s.replace(from, to)` for one-character arguments. */
  function ReplaceChar(s: string, from: char, to: char): (r: string)
    ensures |r| == |s|
    ensures forall i :: 0 <= i < |s| ==> r[i] == if s[i] == from then to else s[i]
    ensures from != to ==> from !in r
  {
    if s == [] then [] else [if s[0] == from then to else s[0]] + ReplaceChar(s[1..], from, to)
  }

  /** The characters for which Python's `str.isspace()` holds, which are the
      ones `str.strip()` with no argument removes. */
  predicate IsSpace(c: char) {
    var n := c as int;
    (9 <= n <= 13) || (28 <= n <= 32) || n == 0x85 || n == 0xA0 || n == 0x1680
    || (0x2000 <= n <= 0x200A) || n == 0x2028 || n == 0x2029 || n == 0x202F
    || n == 0x205F || n == 0x3000
  }

  /** `s.split('\n')[0]`: the text before the first newline. */
  function FirstLine(s: string): (r: string)
    ensures r <= s
    ensures '\n' !in r
    ensures |r| < |s| ==> s[|r|] == '\n'
  {
    if s == [] || s[0] == '\n' then [] else [s[0]] + FirstLine(s[1..])
  }

  function StripLeading(s: string): (r: string)
    ensures |r| <= |s| && r == s[|s| - |r|..]
    ensures forall i :: 0 <= i < |s| - |r| ==> IsSpace(s[i])
    ensures r != [] ==> !IsSpace(r[0])
    ensures forall c :: c in r ==> c in s
  {
    if s != [] && IsSpace(s[0]) then StripLeading(s[1..]) else s
  }

  function StripTrailing(s: string): (r: string)
    ensures |r| <= |s| && r == s[..|r|]
    ensures forall i :: |r| <= i < |s| ==> IsSpace(s[i])
    ensures r != [] ==> !IsSpace(r[|r| - 1])
    ensures forall c :: c in r ==> c in s
  {
    if s != [] && IsSpace(s[|s| - 1]) then StripTrailing(s[..|s| - 1]) else s
  }

  /** `r` is the slice of `s` that starts at `i`, and everything of `s`
      before and after that slice is whitespace. */
  predicate StrippedAt(s: string, i: int, r: string) {
    && 0 <= i <= |s| - |r|
    && r == s[i..i + |r|]
    && (forall k :: 0 <= k < i ==> IsSpace(s[k]))
    && (forall k :: i + |r| <= k < |s| ==> IsSpace(s[k]))
  }

  /** `s.strip()`: whitespace cut from the front, then from the back;
      `StripHalves`, `StripShape`, `StripSlice` and `StripUnique` state what
      that leaves. */
  function Strip(s: string): string {
    if s != [] && IsSpace(s[0]) then Strip(s[1..]) else StripTrailing(s)
  }

  /** `strip()` is `lstrip()` followed by `rstrip()`. */
  lemma {:induction false} StripHalves(s: string)
    ensures Strip(s) == StripTrailing(StripLeading(s))
  {
    if s != [] && IsSpace(s[0]) {
      StripHalves(s[1..]);
    }
  }

  /** What `strip()` leaves starts and ends with a non-space, keeps only
      characters of `s`, and is empty exactly when `s` is all whitespace. */
  lemma StripShape(s: string)
    ensures Strip(s) != [] ==> !IsSpace(Strip(s)[0]) && !IsSpace(Strip(s)[|Strip(s)| - 1])
    ensures forall c :: c in Strip(s) ==> c in s
    ensures Strip(s) == [] <==> forall i :: 0 <= i < |s| ==> IsSpace(s[i])
  {
    var lead := StripLeading(s);
    StripHalves(s);
    StrippedAllSpace(s, lead, StripTrailing(lead));
  }

  /** `strip()` cuts only whitespace and only from the two ends, so what it
      leaves is one contiguous slice of `s` with only whitespace around it. */
  lemma StripSlice(s: string)
    ensures exists i :: StrippedAt(s, i, Strip(s))
  {
    var lead := StripLeading(s);
    StripHalves(s);
    StrippedSlice(s, lead, StripTrailing(lead));
    assert StrippedAt(s, |s| - |lead|, Strip(s));
  }

  /** The two halves of `Strip` remove only whitespace from the ends, so
      nothing is left exactly when everything was whitespace. */
  lemma StrippedAllSpace(s: string, lead: string, r: string)
    requires lead == StripLeading(s) && r == StripTrailing(lead)
    ensures r != [] ==> !IsSpace(r[0]) && !IsSpace(r[|r| - 1])
    ensures forall c :: c in r ==> c in s
    ensures r == [] <==> forall i :: 0 <= i < |s| ==> IsSpace(s[i])
  {
    if r == [] {
      // The leading half left nothing that starts with a space, so the
      // trailing half had nothing to remove.
      assert lead == [];
    } else {
      // The first kept character is a non-space of `s`.
      assert r[0] == lead[0] == s[|s| - |lead|];
    }
    forall c | c in r ensures c in s {
      assert c in lead;
    }
  }

  /** Whitespace cut from the front of `s` and then from the back of what
      is left leaves a slice of `s` bordered by whitespace. */
  lemma StrippedSlice(s: string, lead: string, r: string)
    requires |lead| <= |s| && lead == s[|s| - |lead|..]
    requires forall k :: 0 <= k < |s| - |lead| ==> IsSpace(s[k])
    requires |r| <= |lead| && r == lead[..|r|]
    requires forall k :: |r| <= k < |lead| ==> IsSpace(lead[k])
    ensures StrippedAt(s, |s| - |lead|, r)
  {
    var i := |s| - |lead|;
    forall k | i + |r| <= k < |s| ensures IsSpace(s[k]) {
      assert s[k] == lead[k - i];
    }
  }

  /** A non-empty slice bordered by whitespace, whose own ends are not
      whitespace, starts and ends at non-space characters of `s`. */
  lemma SliceEnds(s: string, i: int, r: string)
    requires StrippedAt(s, i, r) && r != []
    requires !IsSpace(r[0]) && !IsSpace(r[|r| - 1])
    ensures !IsSpace(s[i]) && !IsSpace(s[i + |r| - 1])
  {
    assert r[0] == s[i] && r[|r| - 1] == s[i + |r| - 1];
  }

  /** Stripping has one answer: any slice of `s` bordered by whitespace
      whose own ends are not whitespace is `Strip(s)`. */
  lemma StripUnique(s: string, i: int, r: string)
    requires StrippedAt(s, i, r)
    requires r != [] ==> !IsSpace(r[0]) && !IsSpace(r[|r| - 1])
    ensures r == Strip(s)
  {
    var t := Strip(s);
    StripSlice(s);
    StripShape(s);
    var j :| StrippedAt(s, j, t);
    if r == [] {
      forall k | 0 <= k < |s| ensures IsSpace(s[k]) {
        if k < i { } else { assert i + |r| <= k; }
      }
    } else {
      SliceEnds(s, i, r);
      assert t != [];
      SliceEnds(s, j, t);
      // Neither slice can start or end inside the other's border.
      assert i == j && i + |r| == j + |t|;
    }
  }

  function DigitChar(d: nat): char
    requires d < 10
  {
    (48 + d) as char
  }

  /** The value of a string of decimal digits, most significant first. */
  function DecimalValue(r: string): int {
    if r == [] then 0 else DecimalValue(r[..|r| - 1]) * 10 + (r[|r| - 1] as int - 48)
  }

  /** A decimal numeral as `str` writes one: digits only, at least one, and
      no leading zero unless the numeral is `0` itself. */
  predicate IsDecimal(r: string) {
    && |r| >= 1
    && (forall i :: 0 <= i < |r| ==> '0' <= r[i] <= '9')
    && (r[0] == '0' ==> |r| == 1)
  }

  /** The decimal digits of `n`, as `str(n)` writes them
      (`NatToDecimalSpec` states what they are). */
  function NatToDecimal(n: nat): string {
    if n < 10 then [DigitChar(n)] else NatToDecimal(n / 10) + [DigitChar(n % 10)]
  }

  /** `str(n)` is a numeral, with no leading zero, whose value is `n`. */
  lemma {:induction false} NatToDecimalSpec(n: nat)
    ensures IsDecimal(NatToDecimal(n))
    ensures DecimalValue(NatToDecimal(n)) == n
  {
    if n >= 10 {
      var init := NatToDecimal(n / 10);
      NatToDecimalSpec(n / 10);
      var r := init + [DigitChar(n % 10)];
      assert NatToDecimal(n) == r;
      assert r[..|init|] == init;
      assert r[0] == init[0];
    }
  }

  /** A numeral of digits alone has a non-negative value, and a positive
      one when it does not start with `0`. */
  lemma {:induction false} DecimalValueBounds(r: string)
    requires forall i :: 0 <= i < |r| ==> '0' <= r[i] <= '9'
    ensures DecimalValue(r) >= 0
    ensures r != [] && r[0] != '0' ==> DecimalValue(r) >= 1
  {
    if r != [] {
      var init := r[..|r| - 1];
      DecimalValueBounds(init);
      if |r| > 1 && r[0] != '0' {
        assert init[0] == r[0];
      }
    }
  }

  /** `str` and `int` undo each other on numerals: every numeral `str`
      could write is the one it writes for its own value. */
  lemma {:induction false} DecimalRoundTrip(r: string)
    requires IsDecimal(r)
    ensures DecimalValue(r) >= 0
    ensures NatToDecimal(DecimalValue(r)) == r
  {
    DecimalValueBounds(r);
    var d := r[|r| - 1] as int - 48;
    if |r| > 1 {
      var init := r[..|r| - 1];
      assert init[0] == r[0];
      DecimalValueBounds(init);
      DecimalRoundTrip(init);
      var n := DecimalValue(r);
      assert n == DecimalValue(init) * 10 + d && 0 <= d < 10;
      assert n / 10 == DecimalValue(init) && n % 10 == d;
      assert DigitChar(d) == r[|r| - 1];
      assert r == init + [r[|r| - 1]];
    } else {
      assert r == [r[0]] && DecimalValue(r) == d;
    }
  }

  function Join(parts: seq<string>, sep: string): string {
    if parts == [] then "" else if |parts| == 1 then parts[0] else parts[0] + sep + Join(parts[1..], sep)
  }

  /** `str(v)`, the text `"%s" % v` produces (`ShowSpec` states it). */
  function Show(v: Value): string
    decreases v, 0
  {
    match v
    case VNone => "None"
    case VBool(b) => if b then "True" else "False"
    case VInt(i) => if i < 0 then "-" + NatToDecimal(-i) else NatToDecimal(i)
    case VStr(s) => s
    case VList(xs) => "[" + Join(seq(|xs|, k requires 0 <= k < |xs| => Repr(xs[k])), ", ") + "]"
    case VFunc(f) => "<function " + f.name + ">"
  }

  /** `repr(v)`, used for the items of a list shown by `str`. */
  function Repr(v: Value): string
    decreases v, 1
  {
    if v.VStr? then "'" + v.s + "'" else Show(v)
  }

  /** `str` writes a string as itself, `None` and the booleans by name, an
      integer as an optional `-` and the decimal numeral of its magnitude,
      a list in brackets, and a function with its name. */
  lemma ShowSpec(v: Value)
    ensures v.VStr? ==> Show(v) == v.s
    ensures v == VNone ==> Show(v) == "None"
    ensures v == VBool(true) ==> Show(v) == "True"
    ensures v == VBool(false) ==> Show(v) == "False"
    ensures v.VInt? && v.i >= 0 ==> IsDecimal(Show(v)) && DecimalValue(Show(v)) == v.i
    ensures v.VInt? && v.i < 0 ==>
      |Show(v)| >= 2 && Show(v)[0] == '-' && IsDecimal(Show(v)[1..]) && DecimalValue(Show(v)[1..]) == -v.i
    ensures v.VList? ==> |Show(v)| >= 2 && Show(v)[0] == '[' && Show(v)[|Show(v)| - 1] == ']'
    ensures v == VList([]) ==> Show(v) == "[]"
    ensures v.VList? && |v.items| == 1 ==> Show(v) == "[" + Repr(v.items[0]) + "]"
    ensures v.VFunc? ==> "<function " + v.f.name <= Show(v)
  {
    if v.VInt? && v.i < 0 {
      NatToDecimalSpec(-v.i);
      assert ("-" + NatToDecimal(-v.i))[1..] == NatToDecimal(-v.i);
    } else if v.VInt? {
      NatToDecimalSpec(v.i);
    }
  }

  /** `str()` of a list of two or more items: the first item's repr, then
      `", "`, then what `str()` writes for the rest without its `[`. With the
      empty and one-item cases of `ShowSpec`, this fixes the text of every
      list: the items' reprs in order, separated by `", "`, in brackets. */
  lemma ShowListCons(x: Value, xs: seq<Value>)
    requires xs != []
    ensures Show(VList([x] + xs)) == "[" + Repr(x) + ", " + Show(VList(xs))[1..]
  {
    var ys := [x] + xs;
    var parts := seq(|ys|, k requires 0 <= k < |ys| => Repr(ys[k]));
    var rest := seq(|xs|, k requires 0 <= k < |xs| => Repr(xs[k]));
    assert parts[1..] == rest;
    assert Join(parts, ", ") == Repr(x) + ", " + Join(rest, ", ");
    assert Show(VList(xs))[1..] == Join(rest, ", ") + "]";
  }

  /** `repr` quotes a string and otherwise agrees with `str`. */
  lemma ReprSpec(v: Value)
    ensures v.VStr? ==>
      |Repr(v)| == |v.s| + 2 && Repr(v)[0] == '\'' && Repr(v)[|Repr(v)| - 1] == '\'' && Repr(v)[1..|Repr(v)| - 1] == v.s
    ensures !v.VStr? ==> Repr(v) == Show(v)
  {
    if v.VStr? {
      assert Repr(v)[1..|Repr(v)| - 1] == v.s;
    }
  }
}
