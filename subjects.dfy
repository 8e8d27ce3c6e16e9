/**
 * Subject lines and attachment names of the three kinds of message, and how a receiver tells
 * them apart: the subject alone identifies the role of a message and, for a part, its index.
 */
module Subjects {
  import opened Basics
  import opened Decimal

  const SinglePrefix: string := "[GS_SINGLE][Name: "
  const PartPrefix: string := "[GS_PART][NAME: "
  const SummaryPrefix: string := "[GS_SUM][NAME: "

  /** `"[GS_SINGLE][Name: %s]" % filename` */
  function SingleSubject(filename: string): string
  {
    SinglePrefix + filename + "]"
  }

  /** `"[GS_PART][NAME: %s][%03d]" % (filename, index)` */
  function PartSubject(filename: string, index: nat): string
  {
    PartPrefix + filename + "][" + Format03d(index) + "]"
  }

  /** `"[GS_SUM][NAME: %s]" % filename` */
  function SummarySubject(filename: string): string
  {
    SummaryPrefix + filename + "]"
  }

  /** `"%s.part.%03d" % (filename, index)`: the attachment name of a part. */
  function PartAttachmentName(filename: string, index: nat): string
  {
    filename + ".part." + Format03d(index)
  }

  datatype Role = Single(filename: string) | Part(filename: string, index: nat) | Summary(filename: string)

  /** The receiver's classification of a subject line. */
  function ParseSubject(s: string): Option<Role>
  {
    if |s| > |SinglePrefix| && HasPrefix(SinglePrefix, s) && s[|s| - 1] == ']' then
      Some(Single(s[|SinglePrefix|..|s| - 1]))
    else if |s| > |SummaryPrefix| && HasPrefix(SummaryPrefix, s) && s[|s| - 1] == ']' then
      Some(Summary(s[|SummaryPrefix|..|s| - 1]))
    else if |s| > |PartPrefix| && HasPrefix(PartPrefix, s) && s[|s| - 1] == ']' then
      var inner := s[|PartPrefix|..|s| - 1];
      match LastIndexOf('[', inner)
      case None => None
      case Some(j) =>
        if 0 < j && inner[j - 1] == ']' then
          var index :- ParseNat(inner[j + 1..]);
          Some(Part(inner[..j - 1], index))
        else None
    else None
  }

  /** The index a receiver reads from a part's attachment name. */
  function ParsePartAttachmentName(filename: string, name: string): Option<nat>
  {
    if HasPrefix(filename + ".part.", name) then ParseNat(name[|filename| + 6..]) else None
  }

  lemma SingleSubjectRoundTrip(filename: string)
    ensures ParseSubject(SingleSubject(filename)) == Some(Single(filename))
  {
    var s := SingleSubject(filename);
    assert s[..|SinglePrefix|] == SinglePrefix;
    assert s[|SinglePrefix|..|s| - 1] == filename;
  }

  lemma SummarySubjectRoundTrip(filename: string)
    ensures ParseSubject(SummarySubject(filename)) == Some(Summary(filename))
  {
    var s := SummarySubject(filename);
    assert s[5] == 'U';
    NoPrefixAt(SinglePrefix, s, 5);
    assert s[..|SummaryPrefix|] == SummaryPrefix;
    assert s[|SummaryPrefix|..|s| - 1] == filename;
  }

  lemma PartSubjectRoundTrip(filename: string, index: nat)
    ensures ParseSubject(PartSubject(filename, index)) == Some(Part(filename, index))
  {
    var s := PartSubject(filename, index);
    var digits := Format03d(index);
    assert s[4] == 'P';
    NoPrefixAt(SinglePrefix, s, 4);
    NoPrefixAt(SummaryPrefix, s, 4);
    assert s[..|PartPrefix|] == PartPrefix;
    var inner := s[|PartPrefix|..|s| - 1];
    assert inner == (filename + "]") + ['['] + digits;
    assert '[' !in digits;
    LastIndexOfSplit('[', filename + "]", digits);
    var j := |filename| + 1;
    assert inner[..j - 1] == filename;
    assert inner[j + 1..] == digits;
    Format03dRoundTrip(index);
  }

  lemma PartAttachmentNameRoundTrip(filename: string, index: nat)
    ensures ParsePartAttachmentName(filename, PartAttachmentName(filename, index)) == Some(index)
  {
    var name := PartAttachmentName(filename, index);
    assert name[..|filename + ".part."|] == filename + ".part.";
    assert name[|filename| + 6..] == Format03d(index);
    Format03dRoundTrip(index);
  }

  /** Different parts of one file never share an attachment name, whatever the number of parts. */
  lemma PartAttachmentNamesDistinct(filename: string, i: nat, j: nat)
    requires i != j
    ensures PartAttachmentName(filename, i) != PartAttachmentName(filename, j)
  {
    PartAttachmentNameRoundTrip(filename, i);
    PartAttachmentNameRoundTrip(filename, j);
  }
}
