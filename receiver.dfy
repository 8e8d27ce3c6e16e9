/**
 * The reading of a file's messages that the formats are designed for, used here as the inverse
 * that the packaging is proved against: the subject tells each message's role, the attachment
 * names and bodies number the parts and carry their checksums, and the summary counts them.
 * No receiver is part of the sending program. This one checks the role, the index, the size and
 * the checksum of every part, checks that every part describes the same file as the summary
 * (name, total size, id, whole-file checksum and free text), and checks the joined content
 * against the size and checksum the closing message announces.
 */
module Receiver {
  import opened Basics
  import opened Chunking
  import opened FileInfo
  import opened Subjects
  import opened MsgBuilder

  /** Two bodies describe the same file: name, total size, id, whole-file checksum and free text agree. */
  predicate SameFile(a: Info, b: Info)
  {
    a.filename == b.filename && a.size == b.size && a.fid == b.fid && a.md5sum == b.md5sum
    && a.additionalText == b.additionalText
  }

  /**
   * The payload of part `index` of the file that `summary` describes, if `m` is that part: its
   * subject and attachment name carry the index, and its body describes the same file, carries no
   * part count, and records the index, the payload's size and its checksum.
   */
  function PartPayload(md5: Md5, summary: Info, index: nat, m: Msg): Option<Bytes>
  {
    if ParseSubject(m.subject) != Some(Part(summary.filename, index)) || m.attachment.None? then None
    else
      var a := m.attachment.value;
      var info :- ParseFileInfo(m.text);
      if ParsePartAttachmentName(summary.filename, a.name) == Some(index) && SameFile(info, summary)
         && info.numOfPackages == 0 && info.packageId == index
         && info.packageSize == |a.data| && info.packageChecksum == Some(md5(a.data))
      then Some(a.data)
      else None
  }

  /** The payloads of `parts`, which must be parts 0, 1, ... of the file `summary` describes, in order, joined. */
  function CollectParts(md5: Md5, summary: Info, parts: seq<Msg>): Option<Bytes>
  {
    CollectNumbered((k, m) => PartPayload(md5, summary, k, m), parts)
  }

  /** The file content of one message: a `GS_SINGLE` message's attachment under the file's own name. */
  function SinglePayload(filename: string, m: Msg): Option<Bytes>
  {
    match m.attachment
    case Some(a) => if a.name == filename then Some(a.data) else None
    case None => None
  }

  /**
   * The file a sequence of messages carries: either one `GS_SINGLE` message, or parts followed
   * by a `GS_SUM` message that counts them.
   */
  function Reassemble(md5: Md5, msgs: seq<Msg>): Option<Bytes>
  {
    if msgs == [] then None else ReassembleWith(md5, msgs[..|msgs| - 1], msgs[|msgs| - 1])
  }

  /**
   * The file carried by the messages `front` and the closing message `last`. The result must
   * have the size and the checksum that the last body announces.
   */
  function ReassembleWith(md5: Md5, front: seq<Msg>, last: Msg): Option<Bytes>
  {
    var role :- ParseSubject(last.subject);
    var info :- ParseFileInfo(last.text);
    var data :- match role
      case Single(f) => if front == [] && info.filename == f then SinglePayload(f, last) else None
      case Summary(f) =>
        if info.filename == f && last.attachment.None? && info.numOfPackages == |front|
        then CollectParts(md5, info, front) else None
      case Part(_, _) => None;
    if info.size == |data| && info.md5sum == md5(data) then Some(data) else None
  }

  /** A summary that names the file, counts the parts before it and announces their joined size and checksum accepts them. */
  lemma ReassembleWithSummary(md5: Md5, front: seq<Msg>, last: Msg, info: Info, data: Bytes)
    requires ParseSubject(last.subject) == Some(Summary(info.filename)) && last.attachment.None?
    requires ParseFileInfo(last.text) == Some(info) && info.numOfPackages == |front|
    requires CollectParts(md5, info, front) == Some(data)
    requires info.size == |data| && info.md5sum == md5(data)
    ensures ReassembleWith(md5, front, last) == Some(data)
  {
  }

  /** A part message as `buildFileMsgs` builds it yields its chunk to any summary of the same file. */
  lemma PartPayloadOf(md5: Md5, job: FileJob, summary: Info, index: nat, chunk: Bytes)
    requires SingleLineJob(job) && SingleLineDigests(md5)
    requires SameFile(summary, SingleInfo(job))
    ensures PartPayload(md5, summary, index, PartMsg(job, md5, index, chunk)) == Some(chunk)
  {
    var m := PartMsg(job, md5, index, chunk);
    var info := PartInfo(job, index, |chunk|, md5(chunk));
    PartSubjectRoundTrip(job.filename, index);
    PartAttachmentNameRoundTrip(job.filename, index);
    ParseComposeRoundTrip(info);
    assert ParseFileInfo(m.text) == Some(info);
  }

  /** A part built for one file is refused by a summary that describes another (another id, say). */
  lemma PartOfOtherFileRefused(md5: Md5, job: FileJob, summary: Info, index: nat, chunk: Bytes)
    requires SingleLineJob(job) && SingleLineDigests(md5)
    requires !SameFile(summary, SingleInfo(job))
    ensures PartPayload(md5, summary, index, PartMsg(job, md5, index, chunk)) == None
  {
    PartSubjectRoundTrip(job.filename, index);
    ParseComposeRoundTrip(PartInfo(job, index, |chunk|, md5(chunk)));
  }

  /** The part messages of `chunks` yield the chunks joined in order, to any summary of the same file. */
  lemma CollectPartMsgs(md5: Md5, job: FileJob, summary: Info, chunks: seq<Bytes>)
    requires SingleLineJob(job) && SingleLineDigests(md5)
    requires SameFile(summary, SingleInfo(job))
    ensures CollectParts(md5, summary, PartMsgs(job, md5, chunks)) == Some(Concat(chunks))
  {
    var extract := (k, m) => PartPayload(md5, summary, k, m);
    var make := (k, chunk) => PartMsg(job, md5, k, chunk);
    forall k: nat, chunk: Bytes
      ensures extract(k, make(k, chunk)) == Some(chunk)
    {
      PartPayloadOf(md5, job, summary, k, chunk);
    }
    CollectNumberedInverse(extract, make, chunks);
  }

  /** A single message gives back its attachment. */
  lemma ReassembleSingle(md5: Md5, job: FileJob, data: Bytes)
    requires ReadableJob(job) && job.size == |data| && job.md5sum == md5(data)
    ensures Reassemble(md5, [SingleMsg(job, data)]) == Some(data)
  {
    SingleSubjectRoundTrip(job.filename);
    ParseComposeRoundTrip(SingleInfo(job));
  }

  /** How a receiver reads the summary message: its role, and the arguments of its body. */
  lemma SummaryMsgReading(job: FileJob, packageCount: nat)
    requires ReadableJob(job)
    ensures ParseSubject(SummaryMsg(job, packageCount).subject) == Some(Summary(job.filename))
    ensures ParseFileInfo(SummaryMsg(job, packageCount).text) == Some(SummaryInfo(job, packageCount))
    ensures SummaryMsg(job, packageCount).attachment.None?
  {
    SummarySubjectRoundTrip(job.filename);
    ParseComposeRoundTrip(SummaryInfo(job, packageCount));
  }

  /** Parts followed by the summary that counts them give back the parts joined. */
  lemma ReassembleParts(md5: Md5, job: FileJob, chunks: seq<Bytes>)
    requires ReadableJob(job) && SingleLineDigests(md5)
    requires job.size == |Concat(chunks)| && job.md5sum == md5(Concat(chunks))
    ensures Reassemble(md5, PartMsgs(job, md5, chunks) + [SummaryMsg(job, |chunks|)]) == Some(Concat(chunks))
  {
    var parts := PartMsgs(job, md5, chunks);
    var last := SummaryMsg(job, |chunks|);
    var msgs := parts + [last];
    assert msgs[..|msgs| - 1] == parts && msgs[|msgs| - 1] == last;
    SummaryMsgReading(job, |chunks|);
    CollectPartMsgs(md5, job, SummaryInfo(job, |chunks|), chunks);
    ReassembleWithSummary(md5, parts, last, SummaryInfo(job, |chunks|), Concat(chunks));
  }

  /**
   * Whatever the file holds, a receiver gets it back from the messages `buildFileMsgs` makes of
   * it, provided the limit is not 0, the names, the id and the digests fit on one line each, and
   * the free text does not start with `Package Id: ` (which a single message's body could not
   * tell apart from a part's package block).
   */
  lemma ReassembleFileMsgs(md5: Md5, maxAttSize: int, fromAddr: string, filename: string, fid: string,
                           additionalText: string, data: Bytes)
    requires maxAttSize != 0
    requires ReadableJob(FileJob(fromAddr, filename, fid, md5(data), |data|, additionalText))
    requires SingleLineDigests(md5)
    ensures Reassemble(md5, FileMsgs(md5, maxAttSize, fromAddr, filename, fid, additionalText, data)) == Some(data)
  {
    var job := FileJob(fromAddr, filename, fid, md5(data), |data|, additionalText);
    if |data| < maxAttSize {
      ReassembleSingle(md5, job, data);
    } else {
      ChunksConcat(data, maxAttSize);
      ReassembleParts(md5, job, Chunks(data, maxAttSize));
    }
  }

  /**
   * With a limit of 0 a non-empty file is refused: the only message is a summary of 0 parts with
   * no attachment, and `Reassemble` gives no content for it.
   */
  lemma ZeroLimitLosesFile(md5: Md5, fromAddr: string, filename: string, fid: string,
                           additionalText: string, data: Bytes)
    requires data != []
    requires ReadableJob(FileJob(fromAddr, filename, fid, md5(data), |data|, additionalText))
    requires SingleLineDigests(md5)
    ensures Reassemble(md5, FileMsgs(md5, 0, fromAddr, filename, fid, additionalText, data)) == None
  {
    var job := FileJob(fromAddr, filename, fid, md5(data), |data|, additionalText);
    ZeroLimitNoChunks(data);
    SummarySubjectRoundTrip(filename);
    ParseComposeRoundTrip(SummaryInfo(job, 0));
  }
}
