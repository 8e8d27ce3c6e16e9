/**
 * The plain-text body of every message (`_composeFileInfo`), and the reading of it that a
 * receiver performs: the body is a fixed sequence of `Label: value` lines, some optional,
 * with a separator line of 100 dashes before the package block and before the free text.
 */
module FileInfo {
  import opened Basics
  import opened Decimal

  /** The arguments of `_composeFileInfo`; the source's defaults for the last five are "", 0, -1, 0 and None. */
  datatype Info = Info(filename: string, size: nat, fid: string, md5sum: string, additionalText: string,
                       numOfPackages: nat, packageId: int, packageSize: nat, packageChecksum: Option<string>)

  /** What follows the `Md5sum` line. */
  datatype Tail = Tail(packageId: int, packageSize: nat, packageChecksum: Option<string>, additionalText: string)

  /** `'-' * n` */
  function Dashes(n: nat): (s: string)
    ensures |s| == n && forall k :: 0 <= k < n ==> s[k] == '-'
  {
    if n == 0 then "" else "-" + Dashes(n - 1)
  }

  const Separator: string := Dashes(100)

  lemma SeparatorStartsWithDash()
    ensures |Separator| == 100 && Separator[0] == '-'
  {
  }

  function Line(tag: string, value: string): string
  {
    tag + value + "\n"
  }

  function ComposeFileInfo(i: Info): string
  {
    Line("File Name: ", i.filename) +
    (Line("Total Size: ", NatToString(i.size)) +
    (Line("FID: ", i.fid) +
    ((if i.numOfPackages != 0 then Line("Num of Packages: ", NatToString(i.numOfPackages)) else "") +
    (Line("Md5sum: ", i.md5sum) +
    PackageBlock(i.packageId, i.packageSize, i.packageChecksum, i.additionalText)))))
  }

  /** The optional lines after `Md5sum`, in the order `_composeFileInfo` writes them. */
  function PackageBlock(packageId: int, packageSize: nat, packageChecksum: Option<string>,
                        additionalText: string): string
  {
    (if packageId != -1 then Separator + "\n" + Line("Package Id: ", Format03d(packageId)) else "") +
    ((if packageSize != 0 then Line("Package Size: ", NatToString(packageSize)) else "") +
    ((if packageChecksum.Some? then Line("Package Md5sum: ", packageChecksum.value) else "") +
    (if |additionalText| > 0 then Separator + "\n" + additionalText else "")))
  }

  // ---------------------------------------------------------------------------------------
  // The receiver's reading of a body.

  /** The first line of `t` (without its newline) and the text after it. */
  function SplitLine(t: string): (r: Option<(string, string)>)
    ensures r.Some? ==> '\n' !in r.value.0 && t == r.value.0 + "\n" + r.value.1
  {
    if t == [] then None
    else if t[0] == '\n' then Some(([], t[1..]))
    else match SplitLine(t[1..])
      case None => None
      case Some(p) => Some(([t[0]] + p.0, p.1))
  }

  /** Reads the line `tag value` at the front of `t`: the value and the text after the line. */
  function ReadField(tag: string, t: string): Option<(string, string)>
  {
    if HasPrefix(tag, t) then SplitLine(t[|tag|..]) else None
  }

  /**
   * A numeric line that the writer omits when its value is zero: absent, it reads as 0; present,
   * it must hold a non-zero number, since the writer never prints the line for 0.
   */
  function OptionalNat(tag: string, t: string): Option<(nat, string)>
  {
    if HasPrefix(tag, t) then
      var p :- ReadField(tag, t);
      var n :- ParseNat(p.0);
      if n == 0 then None else Some((n, p.1))
    else Some((0, t))
  }

  /** The separator and `Package Id` line, present exactly when the writer had a package id. */
  function ReadPackageId(t: string): Option<(int, string)>
  {
    if HasPrefix(Separator + "\n", t) && HasPrefix("Package Id: ", t[101..]) then
      var p :- ReadField("Package Id: ", t[101..]);
      var n :- ParseNat(p.0);
      Some((n as int, p.1))
    else Some((-1, t))
  }

  function ReadChecksum(t: string): Option<(Option<string>, string)>
  {
    if HasPrefix("Package Md5sum: ", t) then
      var p :- ReadField("Package Md5sum: ", t);
      Some((Some(p.0), p.1))
    else Some((None, t))
  }

  /**
   * The free text: everything after a second separator, or nothing at all. The writer prints the
   * separator only before non-empty text, so a separator with nothing after it is refused.
   */
  function ReadText(t: string): Option<string>
  {
    if t == [] then Some([])
    else if HasPrefix(Separator + "\n", t) && |t| > 101 then Some(t[101..])
    else None
  }

  function ParseTail(t: string): Option<Tail>
  {
    var id :- ReadPackageId(t);
    var size :- OptionalNat("Package Size: ", id.1);
    var sum :- ReadChecksum(size.1);
    var text :- ReadText(sum.1);
    Some(Tail(id.0, size.0, sum.0, text))
  }

  /** The lines from `Num of Packages` on. */
  function ParseSummaryPart(t: string): Option<(nat, string, Tail)>
  {
    var num :- OptionalNat("Num of Packages: ", t);
    var md5 :- ReadField("Md5sum: ", num.1);
    var tail :- ParseTail(md5.1);
    Some((num.0, md5.0, tail))
  }

  function ParseFileInfo(t: string): Option<Info>
  {
    var name :- ReadField("File Name: ", t);
    var sizeLine :- ReadField("Total Size: ", name.1);
    var size :- ParseNat(sizeLine.0);
    var fid :- ReadField("FID: ", sizeLine.1);
    var rest :- ParseSummaryPart(fid.1);
    var tail := rest.2;
    Some(Info(name.0, size, fid.0, rest.1, tail.additionalText, rest.0,
              tail.packageId, tail.packageSize, tail.packageChecksum))
  }

  /**
   * The arguments for which the body can be read back unambiguously: no field that sits on a
   * line of its own contains a newline, the package id is -1 (absent) or a real index, and free
   * text that directly follows the separator cannot be mistaken for a `Package Id` line.
   */
  predicate Readable(i: Info)
  {
    && '\n' !in i.filename && '\n' !in i.fid && '\n' !in i.md5sum
    && (i.packageChecksum.Some? ==> '\n' !in i.packageChecksum.value)
    && i.packageId >= -1
    && (i.packageId == -1 && i.packageSize == 0 && i.packageChecksum.None? ==>
          !HasPrefix("Package Id: ", i.additionalText))
  }

  // ---------------------------------------------------------------------------------------
  // Round trip.

  lemma {:induction false} SplitLineOf(a: string, b: string)
    requires '\n' !in a
    ensures SplitLine(a + "\n" + b) == Some((a, b))
  {
    var t := a + "\n" + b;
    if a == [] {
      assert t[1..] == b;
    } else {
      assert t[0] == a[0];
      assert t[1..] == a[1..] + "\n" + b;
      SplitLineOf(a[1..], b);
      assert [a[0]] + a[1..] == a;
    }
  }

  lemma ReadFieldOf(tag: string, value: string, rest: string)
    requires '\n' !in value
    ensures ReadField(tag, Line(tag, value) + rest) == Some((value, rest))
  {
    var t := Line(tag, value) + rest;
    assert t[..|tag|] == tag;
    assert t[|tag|..] == value + "\n" + rest;
    SplitLineOf(value, rest);
  }

  lemma OptionalNatOf(tag: string, n: nat, rest: string)
    requires n != 0
    ensures OptionalNat(tag, Line(tag, NatToString(n)) + rest) == Some((n, rest))
  {
    var t := Line(tag, NatToString(n)) + rest;
    assert t[..|tag|] == tag;
    DigitsHaveNoNewline(NatToString(n));
    ReadFieldOf(tag, NatToString(n), rest);
    NatToStringRoundTrip(n);
  }

  /** A present line holding 0 is not one the writer produces, and the reader refuses it. */
  lemma OptionalNatRefusesZero(tag: string, rest: string)
    ensures OptionalNat(tag, Line(tag, NatToString(0)) + rest) == None
  {
    var t := Line(tag, NatToString(0)) + rest;
    assert t[..|tag|] == tag;
    DigitsHaveNoNewline(NatToString(0));
    ReadFieldOf(tag, NatToString(0), rest);
    NatToStringRoundTrip(0);
  }

  /** A separator with no text after it is not what the writer produces, and the reader refuses it. */
  lemma ReadTextRefusesBareSeparator()
    ensures ReadText(Separator + "\n") == None
  {
    SeparatorStartsWithDash();
  }

  lemma SeparatedOf(text: string)
    ensures HasPrefix(Separator + "\n", Separator + "\n" + text)
    ensures (Separator + "\n" + text)[101..] == text
  {
    var t := Separator + "\n" + text;
    assert t[..101] == Separator + "\n";
  }

  function TextBlock(text: string): (block: string)
    ensures block != [] ==> block[0] == '-'
  {
    SeparatorStartsWithDash();
    if |text| > 0 then Separator + "\n" + text else ""
  }

  lemma ReadTextOf(text: string)
    ensures ReadText(TextBlock(text)) == Some(text)
  {
    if |text| > 0 {
      SeparatedOf(text);
    }
  }

  lemma ReadChecksumOf(sum: Option<string>, rest: string)
    requires sum.Some? ==> '\n' !in sum.value
    requires sum.None? ==> !HasPrefix("Package Md5sum: ", rest)
    ensures ReadChecksum((if sum.Some? then Line("Package Md5sum: ", sum.value) else "") + rest)
            == Some((sum, rest))
  {
    if sum.Some? {
      var t := Line("Package Md5sum: ", sum.value) + rest;
      assert t[..16] == "Package Md5sum: ";
      ReadFieldOf("Package Md5sum: ", sum.value, rest);
    } else {
      assert "" + rest == rest;
    }
  }

  lemma OptionalNatOrZero(tag: string, n: nat, rest: string)
    requires n == 0 ==> !HasPrefix(tag, rest)
    ensures OptionalNat(tag, (if n != 0 then Line(tag, NatToString(n)) else "") + rest) == Some((n, rest))
  {
    if n != 0 {
      OptionalNatOf(tag, n, rest);
    } else {
      assert "" + rest == rest;
    }
  }

  lemma ReadPackageIdOf(id: int, rest: string)
    requires id >= -1
    requires id == -1 ==> !(HasPrefix(Separator + "\n", rest) && HasPrefix("Package Id: ", rest[101..]))
    ensures ReadPackageId((if id != -1 then Separator + "\n" + Line("Package Id: ", Format03d(id)) else "") + rest)
            == Some((id, rest))
  {
    if id != -1 {
      var line := Line("Package Id: ", Format03d(id));
      var t := Separator + "\n" + line + rest;
      assert t == Separator + "\n" + (line + rest);
      SeparatedOf(line + rest);
      assert (line + rest)[..12] == "Package Id: ";
      DigitsHaveNoNewline(Format03d(id));
      ReadFieldOf("Package Id: ", Format03d(id), rest);
      Format03dRoundTrip(id);
    } else {
      assert "" + rest == rest;
    }
  }

  /** The size, checksum and text lines of a package block read back, and how the block begins. */
  lemma SizeChecksumTextOf(size: nat, sum: Option<string>, text: string)
    requires sum.Some? ==> '\n' !in sum.value
    ensures var d := TextBlock(text);
            var c := (if sum.Some? then Line("Package Md5sum: ", sum.value) else "") + d;
            var b := (if size != 0 then Line("Package Size: ", NatToString(size)) else "") + c;
            && OptionalNat("Package Size: ", b) == Some((size, c))
            && ReadChecksum(c) == Some((sum, d))
            && ReadText(d) == Some(text)
            && (size != 0 || sum.Some? ==> b[0] == 'P')
            && (size == 0 && sum.None? ==> b == d)
  {
    var d := TextBlock(text);
    var c := (if sum.Some? then Line("Package Md5sum: ", sum.value) else "") + d;
    ReadTextOf(text);
    if sum.None? && d != [] {
      NoPrefixAt("Package Md5sum: ", d, 0);
    }
    ReadChecksumOf(sum, d);
    if size == 0 {
      if sum.Some? {
        assert c[8] == 'M';
        NoPrefixAt("Package Size: ", c, 8);
      } else if d != [] {
        NoPrefixAt("Package Size: ", c, 0);
      }
    }
    OptionalNatOrZero("Package Size: ", size, c);
  }

  lemma TailRoundTrip(id: int, size: nat, sum: Option<string>, text: string)
    requires id >= -1 && (sum.Some? ==> '\n' !in sum.value)
    requires id == -1 && size == 0 && sum.None? ==> !HasPrefix("Package Id: ", text)
    ensures ParseTail(PackageBlock(id, size, sum, text)) == Some(Tail(id, size, sum, text))
  {
    var d := TextBlock(text);
    var c := (if sum.Some? then Line("Package Md5sum: ", sum.value) else "") + d;
    var b := (if size != 0 then Line("Package Size: ", NatToString(size)) else "") + c;
    assert PackageBlock(id, size, sum, text)
        == (if id != -1 then Separator + "\n" + Line("Package Id: ", Format03d(id)) else "") + b;
    SizeChecksumTextOf(size, sum, text);
    if id == -1 {
      SeparatorStartsWithDash();
      if size != 0 || sum.Some? {
        NoPrefixAt(Separator + "\n", b, 0);
      } else if d != [] {
        SeparatedOf(text);
      }
    }
    ReadPackageIdOf(id, b);
  }

  lemma SummaryPartRoundTrip(i: Info)
    requires Readable(i)
    ensures ParseSummaryPart(
              (if i.numOfPackages != 0 then Line("Num of Packages: ", NatToString(i.numOfPackages)) else "") +
              (Line("Md5sum: ", i.md5sum) + PackageBlock(i.packageId, i.packageSize, i.packageChecksum, i.additionalText)))
            == Some((i.numOfPackages, i.md5sum,
                     Tail(i.packageId, i.packageSize, i.packageChecksum, i.additionalText)))
  {
    var tail := PackageBlock(i.packageId, i.packageSize, i.packageChecksum, i.additionalText);
    var md5 := Line("Md5sum: ", i.md5sum) + tail;
    TailRoundTrip(i.packageId, i.packageSize, i.packageChecksum, i.additionalText);
    ReadFieldOf("Md5sum: ", i.md5sum, tail);
    if i.numOfPackages == 0 {
      NoPrefixAt("Num of Packages: ", md5, 0);
    }
    OptionalNatOrZero("Num of Packages: ", i.numOfPackages, md5);
  }

  /** A receiver reads back exactly the arguments the body was composed from. */
  lemma ParseComposeRoundTrip(i: Info)
    requires Readable(i)
    ensures ParseFileInfo(ComposeFileInfo(i)) == Some(i)
  {
    var num := (if i.numOfPackages != 0 then Line("Num of Packages: ", NatToString(i.numOfPackages)) else "") +
               (Line("Md5sum: ", i.md5sum) + PackageBlock(i.packageId, i.packageSize, i.packageChecksum, i.additionalText));
    var fid := Line("FID: ", i.fid) + num;
    var size := Line("Total Size: ", NatToString(i.size)) + fid;
    SummaryPartRoundTrip(i);
    ReadFieldOf("FID: ", i.fid, num);
    DigitsHaveNoNewline(NatToString(i.size));
    ReadFieldOf("Total Size: ", NatToString(i.size), fid);
    NatToStringRoundTrip(i.size);
    ReadFieldOf("File Name: ", i.filename, size);
  }
}
