/** ByteRange: a byte range with optional total, read from "F-T" text and
    written as the value of a Content-Range header (RFC 7233 section 4.2).
    JavaScript numbers are modelled as integers or NaN; a field can also be
    `undefined` or, as `fromString` leaves `to`, an array of numbers. */
module ByteRanges {
  import opened Common

  /** A JavaScript number as far as byte positions go: an integer or NaN. */
  datatype Num = Int(i: int) | NaN

  /** What a ByteRange field can hold. */
  datatype Field = Number(n: Num) | Undefined | Numbers(list: seq<Num>)

  datatype ByteRange = ByteRange(from: Field, to: Field, total: Field)

  /** The argument of `fromString`: a string or anything else. */
  datatype Arg = Str(s: string) | NotAString

  /** The constructor: `from` defaults to 0, `total` to NaN, `to` is taken
      as given (undefined when omitted). */
  function NewByteRange(from: Field, to: Field, total: Field): (r: ByteRange)
    ensures from == Undefined ==> r.from == Number(Int(0))
    ensures from != Undefined ==> r.from == from
    ensures r.to == to
    ensures total == Undefined ==> r.total == Number(NaN)
    ensures total != Undefined ==> r.total == total
  {
    ByteRange(if from == Undefined then Number(Int(0)) else from,
              to,
              if total == Undefined then Number(NaN) else total)
  }

  // ---- decimal digits ----

  predicate IsDigit(c: char) { '0' <= c <= '9' }

  predicate AllDigits(s: string) { forall k :: 0 <= k < |s| ==> IsDigit(s[k]) }

  /** The value of a string of decimal digits. */
  function DigitsValue(s: string): (n: nat)
    requires AllDigits(s)
  {
    if s == [] then 0 else DigitsValue(s[..|s| - 1]) * 10 + (s[|s| - 1] as int - '0' as int)
  }

  /** The shortest decimal spelling of a natural number. */
  function NatToString(n: nat): (s: string)
    ensures |s| > 0 && AllDigits(s)
    ensures '-' !in s
  {
    var d := ['0' + (n % 10) as char];
    if n < 10 then d else NatToString(n / 10) + d
  }

  /** Reading back a spelled number gives the number. */
  lemma {:induction false} DigitsOfNat(n: nat)
    ensures DigitsValue(NatToString(n)) == n
  {
    var s := NatToString(n);
    if n >= 10 {
      DigitsOfNat(n / 10);
      assert s[..|s| - 1] == NatToString(n / 10);
    }
  }

  /** `String(x)` for an integer. */
  function IntToString(i: int): (s: string)
    ensures |s| > 0
  {
    if i < 0 then "-" + NatToString(-i) else NatToString(i)
  }

  /** `Number(v)` for the pieces of a byte range, restricted to plain
      decimal digit strings: such a string is its value (the empty string is
      0). Every other string is read as NaN here, which matches `Number`
      only for strings outside its numeric grammar (see the README for the
      forms this leaves out). */
  function NumberOf(v: string): (n: Num)
    ensures AllDigits(v) ==> n == Int(DigitsValue(v))
    ensures !AllDigits(v) ==> n == NaN
  {
    if AllDigits(v) then Int(DigitsValue(v)) else NaN
  }

  /** `String(n)` for a number. */
  function NumToString(n: Num): string
  {
    match n
    case Int(i) => IntToString(i)
    case NaN => "NaN"
  }

  /** Array.prototype.join(',') of numbers, which is how an array prints. */
  function JoinNums(list: seq<Num>): string
  {
    if list == [] then ""
    else if |list| == 1 then NumToString(list[0])
    else JoinNums(list[..|list| - 1]) + "," + NumToString(list[|list| - 1])
  }

  /** A field in a template string. */
  function FieldToString(f: Field): string
  {
    match f
    case Number(n) => NumToString(n)
    case Undefined => "undefined"
    case Numbers(list) => JoinNums(list)
  }

  /** `isNaN(x)`: conversion to a number gives NaN. An array converts
      through its text: empty is 0, one element is that element, more is NaN. */
  function IsNaN(f: Field): bool
  {
    match f
    case Number(n) => n == NaN
    case Undefined => true
    case Numbers(list) => |list| > 1 || (|list| == 1 && list[0] == NaN)
  }

  /** toHttpHeaderValue: "bytes F-T/" and a star while the total is unknown,
      "bytes F-T/N" once it is known. */
  function ToHttpHeaderValue(r: ByteRange): (h: string)
    ensures IsNaN(r.total) ==> h == "bytes " + FieldToString(r.from) + "-" + FieldToString(r.to) + "/*"
    ensures !IsNaN(r.total) ==>
      h == "bytes " + FieldToString(r.from) + "-" + FieldToString(r.to) + "/" + FieldToString(r.total)
  {
    var prefix := "bytes " + FieldToString(r.from) + "-" + FieldToString(r.to) + "/";
    if IsNaN(r.total) then prefix + "*" else prefix + FieldToString(r.total)
  }

  // ---- splitting on '-' ----

  /** `s.split('-')`: the pieces between the separators, at least one. */
  function Split(s: string): (pieces: seq<string>)
    ensures |pieces| >= 1
    ensures forall k :: 0 <= k < |pieces| ==> '-' !in pieces[k]
  {
    if s == [] then [""]
    else
      var rest := Split(s[1..]);
      if s[0] == '-' then [""] + rest
      else [[s[0]] + rest[0]] + rest[1..]
  }

  /** The pieces joined back with '-'. */
  function Join(pieces: seq<string>): string
  {
    if pieces == [] then ""
    else if |pieces| == 1 then pieces[0]
    else pieces[0] + "-" + Join(pieces[1..])
  }

  /** Joining the pieces of a split gives back the text. */
  lemma {:induction false} JoinSplit(s: string)
    ensures Join(Split(s)) == s
  {
    if s != [] {
      JoinSplit(s[1..]);
      var rest := Split(s[1..]);
      if s[0] != '-' {
        if |rest| > 1 {
          assert Join(rest) == rest[0] + "-" + Join(rest[1..]);
        }
        assert s == [s[0]] + s[1..];
      }
    }
  }

  /** A text without '-' is one piece. */
  lemma {:induction false} SplitNoSeparator(a: string)
    requires '-' !in a
    ensures Split(a) == [a]
  {
    if a != [] {
      assert '-' !in a[1..];
      SplitNoSeparator(a[1..]);
      assert [a[0]] + a[1..] == a;
    }
  }

  /** A text with a prefix without '-' followed by '-' splits there. */
  lemma {:induction false} SplitAtFirst(a: string, b: string)
    requires '-' !in a
    ensures Split(a + "-" + b) == [a] + Split(b)
  {
    if a == [] {
      assert a + "-" + b == "-" + b;
      assert ("-" + b)[1..] == b;
    } else {
      assert '-' !in a[1..];
      SplitAtFirst(a[1..], b);
      assert (a + "-" + b)[1..] == a[1..] + "-" + b;
      assert [a[0]] + a[1..] == a;
    }
  }

  // ---- fromString ----

  /** The numbers of the pieces. */
  function NumbersOf(pieces: seq<string>): (nums: seq<Num>)
    ensures |nums| == |pieces|
    ensures forall k :: 0 <= k < |pieces| ==> nums[k] == NumberOf(pieces[k])
  {
    if pieces == [] then [] else [NumberOf(pieces[0])] + NumbersOf(pieces[1..])
  }

  /** fromString as written: the first number becomes `from` and the whole
      array of numbers becomes `to`; a non-string argument throws. */
  function FromString(raw: Arg): (r: Result<ByteRange, string>)
    ensures raw.NotAString? <==> r.Err?
    ensures raw.Str? ==>
      r.value == ByteRange(Number(NumberOf(Split(raw.s)[0])), Numbers(NumbersOf(Split(raw.s))), Number(NaN))
  {
    match raw
    case NotAString => Err("Raw byte-range is not a string")
    case Str(s) =>
      var parsed := NumbersOf(Split(s));
      Ok(NewByteRange(Number(parsed[0]), Numbers(parsed), Undefined))
  }

  /** As written, "F-T" reads back as "bytes F-F,T/" and a star: `to` prints as the
      whole array of numbers. */
  lemma FromStringHeaderAsWritten(f: nat, t: nat)
    ensures var r := FromString(Str(NatToString(f) + "-" + NatToString(t)));
      r.Ok? && ToHttpHeaderValue(r.value)
        == "bytes " + NatToString(f) + "-" + NatToString(f) + "," + NatToString(t) + "/*"
  {
    var fs, ts := NatToString(f), NatToString(t);
    SplitOfPair(f, t);
    assert NumbersOf([fs, ts]) == [Int(f), Int(t)];
    HeaderOfArrayTo(f, t);
  }

  /** A range whose `to` is the array [F, T] prints `to` as "F,T". */
  lemma HeaderOfArrayTo(f: nat, t: nat)
    ensures ToHttpHeaderValue(ByteRange(Number(Int(f)), Numbers([Int(f), Int(t)]), Number(NaN)))
      == "bytes " + NatToString(f) + "-" + NatToString(f) + "," + NatToString(t) + "/*"
  {
    var fs, ts := NatToString(f), NatToString(t);
    var nums := [Int(f), Int(t)];
    assert nums[..1] == [Int(f)];
    assert JoinNums(nums) == fs + "," + ts;
    assert "bytes " + fs + "-" + (fs + "," + ts) == "bytes " + fs + "-" + fs + "," + ts;
  }

  /** "F-T" splits into the two spellings, which read back as F and T. */
  lemma SplitOfPair(f: nat, t: nat)
    ensures Split(NatToString(f) + "-" + NatToString(t)) == [NatToString(f), NatToString(t)]
    ensures NumberOf(NatToString(f)) == Int(f) && NumberOf(NatToString(t)) == Int(t)
  {
    SplitAtFirst(NatToString(f), NatToString(t));
    SplitNoSeparator(NatToString(t));
    DigitsOfNat(f);
    DigitsOfNat(t);
  }

  /** fromString as evidently intended: the second number becomes `to`
      (undefined when there is no '-'). */
  function FromStringIntended(raw: Arg): (r: Result<ByteRange, string>)
    ensures raw.NotAString? <==> r.Err?
    ensures raw.Str? ==> r.value.from == Number(NumberOf(Split(raw.s)[0])) && r.value.total == Number(NaN)
    ensures raw.Str? && |Split(raw.s)| > 1 ==> r.value.to == Number(NumberOf(Split(raw.s)[1]))
    ensures raw.Str? && |Split(raw.s)| == 1 ==> r.value.to == Undefined
  {
    match raw
    case NotAString => Err("Raw byte-range is not a string")
    case Str(s) =>
      var parsed := NumbersOf(Split(s));
      Ok(NewByteRange(Number(parsed[0]), if |parsed| > 1 then Number(parsed[1]) else Undefined, Undefined))
  }

  /** With the intended reading, "F-T" round-trips to the header "bytes F-T/" and a star. */
  lemma FromStringHeaderIntended(f: nat, t: nat)
    ensures var r := FromStringIntended(Str(NatToString(f) + "-" + NatToString(t)));
      r.Ok? && ToHttpHeaderValue(r.value) == "bytes " + NatToString(f) + "-" + NatToString(t) + "/*"
  {
    var fs, ts := NatToString(f), NatToString(t);
    SplitOfPair(f, t);
    assert NumbersOf([fs, ts]) == [Int(f), Int(t)];
    assert FromStringIntended(Str(fs + "-" + ts)) == Ok(ByteRange(Number(Int(f)), Number(Int(t)), Number(NaN)));
  }

  /** A known total prints as the number after the slash. */
  lemma HeaderWithTotal(f: nat, t: nat, n: nat)
    ensures ToHttpHeaderValue(NewByteRange(Number(Int(f)), Number(Int(t)), Number(Int(n))))
      == "bytes " + NatToString(f) + "-" + NatToString(t) + "/" + NatToString(n)
  {
  }
}
