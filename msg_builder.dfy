/**
 * `GSMsgBuilder`: packaging one file into messages. A file smaller than the attachment limit
 * travels as one `GS_SINGLE` message; one at least as large as numbered `GS_PART` messages, one
 * per bounded read, followed by a `GS_SUM` message that carries the number of parts sent.
 */
module MsgBuilder {
  import opened Basics
  import opened Decimal
  import opened Chunking
  import opened FileInfo
  import opened Subjects
  import opened FileObjects

  const SizeOfMegaByte: nat := 1024 * 1024

  datatype Attachment = Attachment(name: string, data: Bytes)

  /**
   * A message as `buildBaseMsg` builds it, with at most one attachment. `to` is the list joined
   * into the `To` header, which is absent when the list is empty. The MIME structure, base64,
   * the `Date` and `Message-ID` headers are not modelled.
   */
  datatype Msg = Msg(fromAddr: string, to: seq<string>, subject: string, text: string,
                     attachment: Option<Attachment>)

  /** `buildBaseMsg(fromAddr, toAddrs, subject, text)` with no cc and no bcc. */
  function BaseMsg(fromAddr: string, toAddrs: seq<string>, subject: string, text: string): Msg
  {
    Msg(fromAddr, toAddrs, subject, text, None)
  }

  /** What every message of one file shares: the locals of `buildFileMsgs`. */
  datatype FileJob = FileJob(fromAddr: string, filename: string, fid: string, md5sum: string,
                             size: nat, additionalText: string)

  /** The name, the id and the whole-file checksum of `job` contain no line break. */
  predicate SingleLineJob(job: FileJob)
  {
    '\n' !in job.filename && '\n' !in job.fid && '\n' !in job.md5sum
  }

  /**
   * The body of `job`'s single message is `Readable`: the job fits on single lines and its free
   * text cannot be taken for a `Package Id` line. The summary's body differs only in the part
   * count, which `Readable` does not constrain.
   */
  predicate ReadableJob(job: FileJob)
  {
    Readable(SingleInfo(job))
  }

  function SingleInfo(job: FileJob): Info
  {
    Info(job.filename, job.size, job.fid, job.md5sum, job.additionalText, 0, -1, 0, None)
  }

  function PartInfo(job: FileJob, index: nat, packageSize: nat, packageChecksum: string): Info
  {
    Info(job.filename, job.size, job.fid, job.md5sum, job.additionalText, 0, index, packageSize, Some(packageChecksum))
  }

  function SummaryInfo(job: FileJob, packageCount: nat): Info
  {
    Info(job.filename, job.size, job.fid, job.md5sum, job.additionalText, packageCount, -1, 0, None)
  }

  /** The one message of a file below the limit: the whole file attached under its own name, no `To`. */
  function SingleMsg(job: FileJob, data: Bytes): Msg
  {
    BaseMsg(job.fromAddr, [], SingleSubject(job.filename), ComposeFileInfo(SingleInfo(job)))
      .(attachment := Some(Attachment(job.filename, data)))
  }

  /** Part `index`, carrying `chunk` and its own checksum. */
  function PartMsg(job: FileJob, md5: Md5, index: nat, chunk: Bytes): Msg
  {
    BaseMsg(job.fromAddr, [], PartSubject(job.filename, index),
            ComposeFileInfo(PartInfo(job, index, |chunk|, md5(chunk))))
      .(attachment := Some(Attachment(PartAttachmentName(job.filename, index), chunk)))
  }

  /** The closing message: the number of parts, no attachment. */
  function SummaryMsg(job: FileJob, packageCount: nat): Msg
  {
    BaseMsg(job.fromAddr, [], SummarySubject(job.filename), ComposeFileInfo(SummaryInfo(job, packageCount)))
  }

  /** The part messages for the pieces `chunks`, numbered from 0 in order. */
  function PartMsgs(job: FileJob, md5: Md5, chunks: seq<Bytes>): seq<Msg>
  {
    Numbered((k, chunk) => PartMsg(job, md5, k, chunk), chunks)
  }

  /** The messages `buildFileMsgs` returns for a file holding `data`. */
  function FileMsgs(md5: Md5, maxAttSize: int, fromAddr: string, filename: string, fid: string,
                    additionalText: string, data: Bytes): seq<Msg>
  {
    var job := FileJob(fromAddr, filename, fid, md5(data), |data|, additionalText);
    if |data| < maxAttSize then [SingleMsg(job, data)]
    else
      var chunks := Chunks(data, maxAttSize);
      PartMsgs(job, md5, chunks) + [SummaryMsg(job, |chunks|)]
  }

  lemma PartMsgsAppend(job: FileJob, md5: Md5, chunks: seq<Bytes>, chunk: Bytes)
    ensures PartMsgs(job, md5, chunks + [chunk]) == PartMsgs(job, md5, chunks) + [PartMsg(job, md5, |chunks|, chunk)]
  {
    NumberedAppend((k, chunk) => PartMsg(job, md5, k, chunk), chunks, chunk);
  }

  /** A digest that never contains a line break, as a hexadecimal digest does not. */
  ghost predicate SingleLineDigests(md5: Md5)
  {
    forall b :: '\n' !in md5(b)
  }

  /** A file below the limit travels as exactly one `GS_SINGLE` message carrying the whole file, with no `To`. */
  lemma SingleMessageShape(md5: Md5, maxAttSize: int, fromAddr: string, filename: string, fid: string,
                           additionalText: string, data: Bytes)
    requires |data| < maxAttSize
    ensures var msgs := FileMsgs(md5, maxAttSize, fromAddr, filename, fid, additionalText, data);
            && |msgs| == 1 && msgs[0].fromAddr == fromAddr && msgs[0].to == []
            && ParseSubject(msgs[0].subject) == Some(Single(filename))
            && msgs[0].attachment == Some(Attachment(filename, data))
  {
    SingleSubjectRoundTrip(filename);
  }

  /**
   * A file at or above a positive limit becomes `ceil(size / limit)` parts and one summary: at
   * least one part, and the summary comes last, carries no attachment and counts the parts.
   */
  lemma MultiPartShape(md5: Md5, maxAttSize: int, fromAddr: string, filename: string, fid: string,
                       additionalText: string, data: Bytes)
    requires 0 < maxAttSize <= |data|
    ensures var job := FileJob(fromAddr, filename, fid, md5(data), |data|, additionalText);
            var msgs := FileMsgs(md5, maxAttSize, fromAddr, filename, fid, additionalText, data);
            var n := CeilDiv(|data|, maxAttSize);
            && n >= 1 && |msgs| == n + 1
            && ParseSubject(msgs[n].subject) == Some(Summary(filename))
            && msgs[n].to == [] && msgs[n].attachment.None?
            && (ReadableJob(job) && SingleLineDigests(md5)
                ==> ParseFileInfo(msgs[n].text)
                    == Some(Info(filename, |data|, fid, md5(data), additionalText, n, -1, 0, None)))
  {
    var job := FileJob(fromAddr, filename, fid, md5(data), |data|, additionalText);
    var chunks := Chunks(data, maxAttSize);
    ChunksCount(data, maxAttSize);
    ChunksCountBounds(data, maxAttSize);
    SummarySubjectRoundTrip(filename);
    if ReadableJob(job) && SingleLineDigests(md5) {
      ParseComposeRoundTrip(SummaryInfo(job, |chunks|));
    }
  }

  /**
   * Part `i` of a multi-part file: subject `[GS_PART][NAME: f][iii]`, attachment `f.part.iii`
   * holding the `i`-th slice of at most `limit` bytes (never empty), and a body that records the
   * index, the slice's size and the slice's own checksum next to the whole file's.
   */
  lemma PartShape(md5: Md5, maxAttSize: int, fromAddr: string, filename: string, fid: string,
                  additionalText: string, data: Bytes, i: nat)
    requires 0 < maxAttSize <= |data| && i < CeilDiv(|data|, maxAttSize)
    ensures i * maxAttSize < |data|
    ensures var job := FileJob(fromAddr, filename, fid, md5(data), |data|, additionalText);
            var msgs := FileMsgs(md5, maxAttSize, fromAddr, filename, fid, additionalText, data);
            var piece := data[i * maxAttSize .. Min(i * maxAttSize + maxAttSize, |data|)];
            && i < |msgs| && msgs[i].to == []
            && ParseSubject(msgs[i].subject) == Some(Part(filename, i))
            && msgs[i].attachment == Some(Attachment(PartAttachmentName(filename, i), piece))
            && 0 < |piece| <= maxAttSize
            && (SingleLineJob(job) && SingleLineDigests(md5)
                ==> ParseFileInfo(msgs[i].text)
                    == Some(Info(filename, |data|, fid, md5(data), additionalText, 0, i, |piece|, Some(md5(piece)))))
  {
    var job := FileJob(fromAddr, filename, fid, md5(data), |data|, additionalText);
    ChunksCount(data, maxAttSize);
    ChunkAt(data, maxAttSize, i);
    ChunksBounded(data, maxAttSize);
    var piece := Chunks(data, maxAttSize)[i];
    FileMsgsPart(md5, maxAttSize, fromAddr, filename, fid, additionalText, data, i);
    PartSubjectRoundTrip(filename, i);
    if SingleLineJob(job) && SingleLineDigests(md5) {
      ParseComposeRoundTrip(PartInfo(job, i, |piece|, md5(piece)));
    }
  }

  /** Message `i` of a file at or above the limit is the part message for its `i`-th piece. */
  lemma FileMsgsPart(md5: Md5, maxAttSize: int, fromAddr: string, filename: string, fid: string,
                     additionalText: string, data: Bytes, i: nat)
    requires 0 < maxAttSize <= |data| && i < |Chunks(data, maxAttSize)|
    ensures var job := FileJob(fromAddr, filename, fid, md5(data), |data|, additionalText);
            var msgs := FileMsgs(md5, maxAttSize, fromAddr, filename, fid, additionalText, data);
            i < |msgs| && msgs[i] == PartMsg(job, md5, i, Chunks(data, maxAttSize)[i])
  {
    var job := FileJob(fromAddr, filename, fid, md5(data), |data|, additionalText);
    var chunks := Chunks(data, maxAttSize);
    assert PartMsgs(job, md5, chunks)[i] == PartMsg(job, md5, i, chunks[i]);
  }

  /**
   * With an attachment limit of 0 every read comes back empty, so whatever the file holds, only a
   * summary announcing 0 parts is built.
   */
  lemma ZeroLimitSummaryOnly(md5: Md5, fromAddr: string, filename: string, fid: string,
                             additionalText: string, data: Bytes)
    ensures var msgs := FileMsgs(md5, 0, fromAddr, filename, fid, additionalText, data);
            |msgs| == 1 && ParseSubject(msgs[0].subject) == Some(Summary(filename)) && msgs[0].attachment.None?
  {
    ZeroLimitNoChunks(data);
    SummarySubjectRoundTrip(filename);
  }

  class GSMsgBuilder {
    /** The attachment limit in bytes. */
    const maxAttSize: int
    /** The digest that `md5.new()` computes. */
    const md5: Md5

    constructor (maxAttSizeMb: int, md5: Md5)
      ensures maxAttSize == maxAttSizeMb * SizeOfMegaByte && this.md5 == md5
    {
      maxAttSize := maxAttSizeMb * SizeOfMegaByte;
      this.md5 := md5;
    }

    /** `_buffMd5sum`: the digest of an in-memory buffer in one go. */
    function BuffMd5Sum(buff: Bytes): string
    {
      md5(buff)
    }

    /**
     * `_md5sum`: feeds the rest of the file to the digest in 1 MiB blocks until a read comes back
     * empty. The blocks fed, in order, are exactly the bytes from the cursor to the end of the file,
     * so the streamed digest is the one-shot digest of those bytes, and the cursor ends at the end.
     */
    method Md5Sum(file: FileObject) returns (digest: string)
      requires file.Valid() && !file.closed
      modifies file
      ensures file.Valid() && !file.closed && file.pos == |file.content|
      ensures digest == BuffMd5Sum(file.content[old(file.pos)..])
    {
      var start := file.pos;
      var fed: Bytes := [];
      while true
        invariant file.Valid() && !file.closed && start == old(file.pos) <= file.pos
        invariant fed == file.content[start..file.pos]
        decreases |file.content| - file.pos
      {
        var buff := file.Read(SizeOfMegaByte);
        if |buff| == 0 {
          assert file.pos == |file.content|;
          break;
        }
        fed := fed + buff;
      }
      assert fed == file.content[start..];
      digest := md5(fed);
    }

    /**
     * `buildFileMsgs`: opens the file named by `attachment` (whose bytes are `content`), digests it,
     * rewinds, and packages it. The recipients are dropped on purpose, so no message has a `To`.
     * `fid` stands for the fresh `uuid1()` string.
     */
    method BuildFileMsgs(fromAddr: string, toAddrs: seq<string>, attachment: string, content: Bytes,
                         fid: string, additionalText: string) returns (msgs: seq<Msg>)
      ensures msgs == FileMsgs(md5, maxAttSize, fromAddr, Basename(attachment), fid, additionalText, content)
    {
      var to: seq<string> := [];
      var filename := Basename(attachment);
      var attachfile := new FileObject.Open(content);
      var md5sum := Md5Sum(attachfile);
      assert content[0..] == content;
      var size := attachfile.Tell();
      attachfile.Rewind();
      var job := FileJob(fromAddr, filename, fid, md5sum, size, additionalText);
      assert job == FileJob(fromAddr, filename, fid, md5(content), |content|, additionalText);
      msgs := [];
      if size < maxAttSize {
        var fobj := attachfile.ReadAll();
        assert fobj == content;
        var subject := SingleSubject(filename);
        var text := ComposeFileInfo(SingleInfo(job));
        var msg := BaseMsg(fromAddr, to, subject, text);
        msg := msg.(attachment := Some(Attachment(filename, fobj)));
        assert msg == SingleMsg(job, content);
        msgs := msgs + [msg];
      } else {
        var packageCount;
        msgs, packageCount := BuildPartMsgs(attachfile, job);
        var subject := SummarySubject(filename);
        var text := ComposeFileInfo(SummaryInfo(job, packageCount));
        var msg := BaseMsg(fromAddr, to, subject, text);
        msgs := msgs + [msg];
      }
      attachfile.Close();
    }

    /**
     * The part loop of `buildFileMsgs`: reads the file from the cursor in reads of at most
     * `maxAttSize` bytes and makes one part message per non-empty read, numbering them from 0,
     * until a read comes back empty. Returns the parts and their number.
     */
    method BuildPartMsgs(attachfile: FileObject, job: FileJob) returns (msgs: seq<Msg>, packageCount: nat)
      requires attachfile.Valid() && !attachfile.closed && attachfile.pos == 0
      modifies attachfile
      ensures attachfile.Valid() && !attachfile.closed
      ensures var chunks := Chunks(attachfile.content, maxAttSize);
              msgs == PartMsgs(job, md5, chunks) && packageCount == |chunks|
    {
      msgs := [];
      packageCount := 0;
      ghost var done: seq<Bytes> := [];
      ReadProgressStart(attachfile.content, maxAttSize);
      while true
        invariant attachfile.Valid() && !attachfile.closed
        invariant ReadProgress(attachfile.content, attachfile.pos, maxAttSize, done)
        invariant packageCount == |done| && msgs == PartMsgs(job, md5, done)
        decreases |attachfile.content| - attachfile.pos
      {
        var fobj;
        fobj, msgs := ReadPart(attachfile, job, msgs, packageCount, done);
        if |fobj| == 0 {
          break;
        }
        packageCount := packageCount + 1;
        done := done + [fobj];
      }
    }

    /**
     * One pass of the part loop: a read of at most `maxAttSize` bytes from the cursor. A
     * non-empty read moves the cursor on and is appended as the next part; an empty one means
     * that every piece has been read.
     */
    method ReadPart(attachfile: FileObject, job: FileJob, msgs: seq<Msg>, packageCount: nat, ghost done: seq<Bytes>)
      returns (fobj: Bytes, msgs': seq<Msg>)
      requires attachfile.Valid() && !attachfile.closed
      requires ReadProgress(attachfile.content, attachfile.pos, maxAttSize, done)
      requires packageCount == |done| && msgs == PartMsgs(job, md5, done)
      modifies attachfile
      ensures attachfile.Valid() && !attachfile.closed
      ensures fobj == [] ==> msgs' == msgs && done == Chunks(attachfile.content, maxAttSize)
      ensures fobj != [] ==> && old(attachfile.pos) < attachfile.pos
                             && ReadProgress(attachfile.content, attachfile.pos, maxAttSize, done + [fobj])
                             && msgs' == PartMsgs(job, md5, done + [fobj])
    {
      ghost var offset := attachfile.pos;
      fobj := attachfile.Read(maxAttSize);
      if |fobj| == 0 {
        ReadProgressDone(attachfile.content, offset, maxAttSize, done);
        msgs' := msgs;
      } else {
        ReadProgressStep(attachfile.content, offset, maxAttSize, done, fobj);
        msgs' := AppendPartMsg(msgs, done, job, packageCount, fobj);
      }
    }

    method AppendPartMsg(msgs: seq<Msg>, ghost done: seq<Bytes>, job: FileJob, packageCount: nat, fobj: Bytes)
      returns (msgs': seq<Msg>)
      requires packageCount == |done| && msgs == PartMsgs(job, md5, done)
      ensures msgs' == PartMsgs(job, md5, done + [fobj])
    {
      var to: seq<string> := [];
      var packageSize := |fobj|;
      var packageChecksum := BuffMd5Sum(fobj);
      var subject := PartSubject(job.filename, packageCount);
      var text := ComposeFileInfo(PartInfo(job, packageCount, packageSize, packageChecksum));
      var msg := BaseMsg(job.fromAddr, to, subject, text);
      msg := msg.(attachment := Some(Attachment(PartAttachmentName(job.filename, packageCount), fobj)));
      assert msg == PartMsg(job, md5, packageCount, fobj);
      PartMsgsAppend(job, md5, done, fobj);
      msgs' := msgs + [msg];
    }
  }
}
