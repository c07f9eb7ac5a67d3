/** The Quadriflow command line built inside `QuadriflowRemesher.execute`:
    a seven-element vector, then each enabled option's flag inserted with
    Python's `list.insert(-1, flag)`, which places it before the last
    element, the face count. */
module Command {
  import opened Decimal

  /** The operator's properties as one execution reads them. */
  datatype Options = Options(
    sharp: bool,
    adaptive: bool,
    minimumCostFlow: bool,
    faces: int,
    cuda: bool)

  const SharpFlag: string := "-sharp"
  const AdaptiveFlag: string := "-adaptive"
  const McfFlag: string := "-mcf"

  /** The position Python's `list.insert(i, x)` uses in a list of length
      `n`: a negative index counts from the end, and an index out of range
      is clamped to the nearest end. */
  function InsertIndex(n: nat, i: int): (k: nat)
    ensures k <= n
    ensures 0 <= i <= n ==> k == i
    ensures i < 0 && i + n >= 0 ==> n - k == 0 - i
    ensures i > n ==> k == n
    ensures i + n < 0 ==> k == 0
  {
    if i < 0 then (if i + n < 0 then 0 else i + n)
    else if i > n then n
    else i
  }

  /** `list.insert(i, x)` on the list `s`: one element longer, with `x` at
      the normalised position. */
  function Insert<T>(s: seq<T>, i: int, x: T): (r: seq<T>)
    ensures |r| == |s| + 1 && r[InsertIndex(|s|, i)] == x
  {
    var k := InsertIndex(|s|, i);
    s[..k] + [x] + s[k..]
  }

  /** `insert` adds exactly one element, `x`, at the normalised position:
      taking it out again gives back the original list. */
  lemma InsertSpec<T>(s: seq<T>, i: int, x: T)
    ensures var r, k := Insert(s, i, x), InsertIndex(|s|, i);
      && k <= |s| && |r| == |s| + 1 && r[k] == x
      && r[..k] + r[k + 1..] == s
      && multiset(r) == multiset(s) + multiset{x}
  {
  }

  /** `insert(-1, x)` puts `x` just before the last element, not at the end;
      only in an empty list does it become the last element. */
  lemma InsertBeforeLast<T>(s: seq<T>, x: T)
    ensures |s| >= 1 ==> Insert(s, -1, x) == s[..|s| - 1] + [x, s[|s| - 1]]
    ensures |s| == 0 ==> Insert(s, -1, x) == [x]
  {
  }

  /** One `insert(-1, flag)` on a vector that ends in the face count adds
      the flag after the flags already placed, keeping the count last. */
  lemma InsertFlag(head: seq<string>, flags: seq<string>, count: string, flag: string)
    ensures Insert(head + flags + [count], -1, flag) == head + (flags + [flag]) + [count]
  {
  }

  /** The flags of the enabled options, in the order `execute` inserts
      them. */
  function EnabledFlags(o: Options): seq<string>
  {
    (if o.sharp then [SharpFlag] else [])
    + (if o.adaptive then [AdaptiveFlag] else [])
    + (if o.minimumCostFlow then [McfFlag] else [])
  }

  function FlagCount(o: Options): nat
  {
    (if o.sharp then 1 else 0) + (if o.adaptive then 1 else 0) + (if o.minimumCostFlow then 1 else 0)
  }

  /** The position of a flag in the order `-sharp`, `-adaptive`, `-mcf`. */
  function FlagRank(flag: string): nat
  {
    if flag == SharpFlag then 0 else if flag == AdaptiveFlag then 1 else 2
  }

  /** The argument vector as `execute` leaves it: executable, `-i` input,
      `-o` output, `-f`, the enabled flags, and the face count last. It has
      seven elements plus one per enabled option. */
  function ExpectedArguments(exe: string, input: string, output: string, o: Options): (a: seq<string>)
    ensures |a| == 7 + FlagCount(o)
    ensures a[..6] == [exe, "-i", input, "-o", output, "-f"]
    ensures a[|a| - 1] == IntToDecimal(o.faces)
    ensures a[6..|a| - 1] == EnabledFlags(o)
  {
    [exe, "-i", input, "-o", output, "-f"] + EnabledFlags(o) + [IntToDecimal(o.faces)]
  }

  /** Builds the vector step by step as `execute` does: the seven fixed
      elements, then one `insert(-1, …)` per enabled option. */
  method BuildArguments(exe: string, input: string, output: string, o: Options)
    returns (arguments: seq<string>)
    ensures arguments == ExpectedArguments(exe, input, output, o)
  {
    var head := [exe, "-i", input, "-o", output, "-f"];
    var count := IntToDecimal(o.faces);
    ghost var sharpPart := if o.sharp then [SharpFlag] else [];
    ghost var adaptivePart := if o.adaptive then [AdaptiveFlag] else [];
    ghost var mcfPart := if o.minimumCostFlow then [McfFlag] else [];
    arguments := head + [count];
    if o.sharp {
      InsertFlag(head, [], count, SharpFlag);
      arguments := Insert(arguments, -1, SharpFlag);
    }
    assert arguments == head + sharpPart + [count];
    if o.adaptive {
      InsertFlag(head, sharpPart, count, AdaptiveFlag);
      arguments := Insert(arguments, -1, AdaptiveFlag);
    }
    assert arguments == head + (sharpPart + adaptivePart) + [count];
    if o.minimumCostFlow {
      InsertFlag(head, sharpPart + adaptivePart, count, McfFlag);
      arguments := Insert(arguments, -1, McfFlag);
    }
    assert arguments == head + (sharpPart + adaptivePart + mcfPart) + [count];
  }

  /** A flag is present exactly when its option is on, and present flags
      keep the order `-sharp`, `-adaptive`, `-mcf`. */
  lemma FlagsMatchOptions(o: Options)
    ensures SharpFlag in EnabledFlags(o) <==> o.sharp
    ensures AdaptiveFlag in EnabledFlags(o) <==> o.adaptive
    ensures McfFlag in EnabledFlags(o) <==> o.minimumCostFlow
    ensures forall i, j :: 0 <= i < j < |EnabledFlags(o)| ==>
      FlagRank(EnabledFlags(o)[i]) < FlagRank(EnabledFlags(o)[j])
  {
  }

  /** What follows `-f` is the face count exactly when no option is on;
      otherwise it is the first enabled flag, and the count is last. */
  lemma FaceSwitchOperand(exe: string, input: string, output: string, o: Options)
    ensures var a := ExpectedArguments(exe, input, output, o);
      a[6] == (if FlagCount(o) == 0 then IntToDecimal(o.faces) else EnabledFlags(o)[0])
    ensures ExpectedArguments(exe, input, output, o)[6] == IntToDecimal(o.faces) <==> FlagCount(o) == 0
  {
  }

  /** The face count can be read back from the last argument. */
  lemma FaceCountReadable(exe: string, input: string, output: string, o: Options)
    ensures var a := ExpectedArguments(exe, input, output, o);
      IsDecimal(a[|a| - 1]) && ParseDecimal(a[|a| - 1]) == o.faces
  {
    DecimalRoundTrip(o.faces);
  }

  /** With only adaptive mode on and 800 faces, `-adaptive` lands between
      `-f` and `800`. */
  lemma AdaptiveExample(exe: string, input: string, output: string)
    ensures ExpectedArguments(exe, input, output, Options(false, true, false, 800, false))
      == [exe, "-i", input, "-o", output, "-f", "-adaptive", "800"]
  {
    assert NatToDecimal(8) == "8";
    assert NatToDecimal(80) == "80";
    assert IntToDecimal(800) == "800";
  }
}
