# gsend in Dafny

A model of the core of `gsend`. The program sends an arbitrarily large file as a series of email
messages, each at most an attachment ceiling, over one SMTP session that it keeps alive.

The model covers four parts of `src/gsend.py`:

- **Packaging** (`GSMsgBuilder`, module `MsgBuilder`).
  - A file smaller than the attachment limit becomes one `[GS_SINGLE][Name: f]` message carrying
    the whole file.
  - A file at least as large as the limit is read in reads of at most `maxAttSize` bytes until
    a read comes back empty. Each non-empty read becomes a `[GS_PART][NAME: f][iii]` message with the attachment
    `f.part.iii` and its own checksum. A closing `[GS_SUM][NAME: f]` message then gives the
    number of parts sent.
  - The whole-file checksum is computed by streaming the file in 1 MiB blocks (`_md5sum`). The
    file size is the cursor position after that, and the file is rewound before packaging.
  - The read loop is modelled once, in module `Chunking`, as the pieces that successive bounded
    reads return. It has the source's `read(n)` semantics: a negative `n` reads everything and
    `n == 0` reads nothing.
- **Bodies and subjects** (modules `FileInfo`, `Subjects` and `Decimal`): `_composeFileInfo`
  with its optional lines, the three subject formats, the part attachment names, and Python's
  `%d`/`%03d`.
- **Sliced sending** (`ObservableSMTP.send`, module `Smtp`). The outgoing text goes to the socket
  in slices of 2048 characters. The amount sent so far is reported before every pass. A socket
  error closes the connection, and sending without a socket is an error.
- **Delivery** (`GSSender`, module `Sender`).
  - `_connect` keeps a session that answers `noop` and otherwise logs in afresh.
  - `_doSend` succeeds exactly when `sendmail` ran on a connected session and did not raise.
  - `sendFiles` sends every message of every file in order, and retries each message until it
    goes out.

**What the packaging and the loops are proved against.**

- No receiver is part of the program, so module `Receiver` defines the reading that the message
  format is designed for.
  - It classifies each subject and parses each body.
  - It checks every part's index, size and checksum, and that the part describes the same file
    as the summary (name, total size, id, whole-file checksum, free text).
  - It joins the parts and checks the result against the announced size and checksum.
  - The packaging is proved against this reading: `Receiver.ReassembleFileMsgs` proves that a
    receiver gets the file back.
- The body reader is strict. A zero-valued `Num of Packages` or `Package Size` line is refused,
  and so is a separator with no text after it. The round trip of `_composeFileInfo` therefore
  also pins down which lines are left out.
- Each retry-loop method is proved against `Sender.Deliver`, the retry loop written as a function.
- The part loop of `buildFileMsgs` and the slicing loop of `send` are proved against
  `Chunking.Chunks`. The 1 MiB loop of `_md5sum` is proved to feed exactly the bytes from the
  cursor to the end of the file.

**Parameters.** Everything outside the program's own logic is a parameter:

- MD5 is a function `Md5 = Bytes -> string`.
- The `uuid1()` string is `fid`.
- The file's bytes are `content`.
- Each network outcome (`noop`, connect, TLS handshake, `login`, `sendmail`, `quit`) is a field
  of `Sender.Attempt` or a method argument.
- The socket error in `send` is `brokenAt`, the number of the failing `sendall` call.

**Behaviour of the code worth knowing:**

- An empty file is not rejected. With a positive limit it travels as one `GS_SINGLE` message
  with an empty attachment.
- A failed login is not fatal. `_connect` swallows it, so `sendFiles` keeps retrying.
- Retries are not bounded by a retry count and there is no backoff: `sendFiles` retries a message
  forever. The model consumes a finite list of attempt outcomes instead, and reports
  `StillRetrying` when the list runs out. `Sender.DeliverBounds` shows that this happens only
  then.
- With an attachment limit of 0, every read is empty, so no byte of a non-empty file is attached:
  only a summary of 0 parts is sent (`MsgBuilder.ZeroLimitSummaryOnly`), and `Reassemble` refuses
  it (`Receiver.ZeroLimitLosesFile`).

## Model

| member | source | states |
|---|---|---|
| Basics.Basename | src/gsend.py:183 | `os.path.basename`: the result has no `/`, is a suffix of the path, and is preceded by `/` when shorter than it |
| Chunking.ReadLen | src/gsend.py:100 | how many bytes `read(n)` returns; its properties are `Chunking.ReadLenBounds` |
| Chunking.ReadLenBounds | src/gsend.py:100 | `read(n)` with `avail` bytes left returns at most `avail` and, for `n >= 0`, at most `n`; it returns fewer than `avail` only when `n` limits it |
| Chunking.Chunks | src/gsend.py:207-222 | the pieces that successive reads return up to the first empty one; its properties are the lemmas below |
| Chunking.ChunksConcat | src/gsend.py:207-222 | the pieces that successive reads return, joined in order, are the whole file (any non-zero limit) |
| Chunking.ChunksBounded | src/gsend.py:209-212 | every piece is non-empty (the loop stops at the first empty read) and no longer than a positive limit |
| Chunking.ChunkAt | src/gsend.py:207-222 | piece `i` is exactly the bytes `[i*limit, min(i*limit+limit, size))` |
| Chunking.ChunksCount | src/gsend.py:207-222 | there are `ceil(size/limit)` pieces, so an exact multiple gives no zero-byte trailing part |
| Chunking.ChunksCountBounds | src/gsend.py:207-222 | `n` pieces: none exactly for empty data, `(n-1)*limit < size <= n*limit` |
| Chunking.PrefixLength | src/gsend.py:207-222 | the first `i` pieces together hold `min(Offset(i), size)` bytes, where `Offset(i)` is `i` full reads, `i * limit` by `Chunking.OffsetIsProduct` |
| Chunking.ZeroLimitNoChunks | src/gsend.py:209-212 | with a limit of 0 the first read is empty and no part is produced |
| Chunking.NegativeLimitOneChunk | src/gsend.py:209 | with a negative limit `read` returns the whole rest, so non-empty data is one piece |
| Chunking.ReadProgressStep | src/gsend.py:208-212 | a non-empty read keeps the read loop's invariant, with the piece appended |
| Chunking.ReadProgressDone | src/gsend.py:211-212 | once a read is empty, the pieces read are all the pieces |
| Decimal.NatToString | src/gsend.py:157 | `%d`: a non-empty run of digits, with no leading zero unless the value is 0 |
| Decimal.NatToStringRoundTrip | src/gsend.py:157 | reading a `%d` numeral gives back the number |
| Decimal.Format03d | src/gsend.py:165 | `%03d`: at least three characters, exactly three below 1000, all digits for non-negative numbers |
| Decimal.Format03dRoundTrip | src/gsend.py:215 | reading a `%03d` numeral, padding and all, gives back the number, including past 999 |
| Decimal.Format03dInjective | src/gsend.py:219 | different indices never format alike |
| FileInfo.Dashes | src/gsend.py:164 | `'-'*n` is `n` dashes |
| FileInfo.ComposeFileInfo | src/gsend.py:153-175 | `_composeFileInfo`; its properties are the round-trip lemmas below |
| FileInfo.PackageBlock | src/gsend.py:163-172 | the optional lines after `Md5sum`; read back by `FileInfo.TailRoundTrip` |
| FileInfo.ParseComposeRoundTrip | src/gsend.py:153-175 | a strict receiver reads back every argument the body was composed from. Because that reader refuses a zero `Num of Packages` or `Package Size` line and a bare second separator, the body has its lines in the source's order with each optional line present exactly when the source writes it |
| FileInfo.OptionalNatRefusesZero | src/gsend.py:159-160 | a `Num of Packages` or `Package Size` line holding 0, which the source never writes, is refused by the reader |
| FileInfo.ReadTextRefusesBareSeparator | src/gsend.py:170-172 | a second separator with no text after it, which the source never writes, is refused by the reader |
| FileInfo.TailRoundTrip | src/gsend.py:163-172 | the block after `Md5sum` (separator and `Package Id` when the id is not -1, `Package Size` when non-zero, `Package Md5sum` when given, separator and free text when non-empty) is read back exactly |
| FileInfo.SummaryPartRoundTrip | src/gsend.py:159-172 | `Num of Packages` appears exactly when non-zero, before `Md5sum`, and is read back |
| Subjects.SingleSubject | src/gsend.py:199 | `"[GS_SINGLE][Name: %s]"`; recognised by `Subjects.SingleSubjectRoundTrip` |
| Subjects.PartSubject | src/gsend.py:215 | `"[GS_PART][NAME: %s][%03d]"`; recognised by `Subjects.PartSubjectRoundTrip` |
| Subjects.SummarySubject | src/gsend.py:224 | `"[GS_SUM][NAME: %s]"`; recognised by `Subjects.SummarySubjectRoundTrip` |
| Subjects.PartAttachmentName | src/gsend.py:219 | `"%s.part.%03d"`; read back by `Subjects.PartAttachmentNameRoundTrip` |
| Subjects.SingleSubjectRoundTrip | src/gsend.py:199 | `[GS_SINGLE][Name: f]` is recognised as the single message of `f` |
| Subjects.PartSubjectRoundTrip | src/gsend.py:215 | `[GS_PART][NAME: f][iii]` is recognised as part `i` of `f`, even when `f` contains brackets |
| Subjects.SummarySubjectRoundTrip | src/gsend.py:224 | `[GS_SUM][NAME: f]` is recognised as the summary of `f` |
| Subjects.PartAttachmentNameRoundTrip | src/gsend.py:219 | `f.part.iii` gives back the index `i` |
| Subjects.PartAttachmentNamesDistinct | src/gsend.py:219 | different parts of one file never share an attachment name |
| FileObjects.FileObject.Open | src/gsend.py:184 | opening gives the file's bytes with the cursor at 0 |
| FileObjects.FileObject.Read | src/gsend.py:100 | `read(n)` returns up to `n` bytes from the cursor (all of them for negative `n`) and advances the cursor by as many |
| FileObjects.FileObject.ReadAll | src/gsend.py:198 | `read()` returns everything from the cursor and leaves it at the end |
| FileObjects.FileObject.Tell | src/gsend.py:189 | the cursor never lies past the end |
| FileObjects.FileObject.Rewind | src/gsend.py:191 | `seek(0)` puts the cursor back at 0 |
| FileObjects.FileObject.Close | src/gsend.py:231 | closing keeps the cursor |
| MsgBuilder.BaseMsg | src/gsend.py:123-140 | `buildBaseMsg` without cc and bcc: sender, recipients, subject, body, no attachment |
| MsgBuilder.SingleMsg | src/gsend.py:198-202 | the single message; its shape is `MsgBuilder.SingleMessageShape` |
| MsgBuilder.PartMsg | src/gsend.py:213-219 | one part message; its shape is `MsgBuilder.PartShape` |
| MsgBuilder.SummaryMsg | src/gsend.py:224-227 | the summary message; its shape is `MsgBuilder.MultiPartShape` |
| MsgBuilder.FileMsgs | src/gsend.py:177-233 | what `buildFileMsgs` returns, by value; `MsgBuilder.GSMsgBuilder.BuildFileMsgs` computes it and the shape and reassembly lemmas state its properties |
| MsgBuilder.GSMsgBuilder.BuffMd5Sum | src/gsend.py:107-111 | `_buffMd5sum`: the one-shot digest, which `MsgBuilder.GSMsgBuilder.Md5Sum` is proved to match |
| MsgBuilder.GSMsgBuilder.constructor | src/gsend.py:87-88 | the limit is `maxAttSizeMb * 1024 * 1024` bytes |
| MsgBuilder.GSMsgBuilder.Md5Sum | src/gsend.py:95-105 | the digest of the 1 MiB blocks streamed until an empty read is the one-shot digest (`_buffMd5sum`) of the bytes from the cursor to the end, and the cursor ends at the end, so `tell()` is the size |
| MsgBuilder.GSMsgBuilder.BuildFileMsgs | src/gsend.py:177-233 | the messages built from the file are `FileMsgs` of its basename and bytes: digest streamed, size from the cursor, file rewound before packaging, recipients dropped |
| MsgBuilder.GSMsgBuilder.BuildPartMsgs | src/gsend.py:207-222 | the part loop makes exactly one part per piece of the file, numbered from 0 in order, and counts them |
| MsgBuilder.GSMsgBuilder.ReadPart | src/gsend.py:209-221 | one pass of the loop: an empty read means the pieces read so far are all the pieces, and nothing is added; a non-empty read moves the cursor on, extends the read progress and appends the part for the next index |
| MsgBuilder.GSMsgBuilder.AppendPartMsg | src/gsend.py:213-221 | one pass appends the part for the next index, with subject, attachment name and checksum of that read |
| MsgBuilder.PartMsgsAppend | src/gsend.py:221-222 | a new part goes after the earlier ones with the next index |
| MsgBuilder.SingleMessageShape | src/gsend.py:196-204 | below the limit: exactly one message, subject `GS_SINGLE` of the file, the whole file attached under its name, no `To` |
| MsgBuilder.MultiPartShape | src/gsend.py:205-229 | for every file name, id and free text at or above a positive limit: `ceil(size/limit) >= 1` parts, then one summary, which comes last and has no attachment or `To`. When the name and id have no line break and the free text does not start with `Package Id: `, the summary's body reads back as the number of parts actually emitted |
| MsgBuilder.PartShape | src/gsend.py:207-222 | for every file name: part `i` has subject `[GS_PART][NAME: f][iii]`, attachment `f.part.iii` holding the `i`-th slice (non-empty, at most the limit) and no `To`. When the name and id have no line break, its body reads back as index, slice size, slice checksum and whole-file checksum |
| MsgBuilder.FileMsgsPart | src/gsend.py:207-221 | at or above the limit, message `i` is the part message for the `i`-th read |
| MsgBuilder.ZeroLimitSummaryOnly | src/gsend.py:196-229 | with a limit of 0, whatever the file, only a summary is sent |
| Receiver.ReassembleFileMsgs | src/gsend.py:177-233 | with a non-zero limit, `Reassemble` rebuilds exactly the file from the messages built for it, checking every role and index, each part's size and checksum and its agreement with the summary, and the joined content's size and checksum |
| Receiver.ReassembleSingle | src/gsend.py:196-204 | the single message gives back its attachment |
| Receiver.ReassembleParts | src/gsend.py:205-229 | parts followed by the summary that counts them give back the parts joined |
| Receiver.CollectPartMsgs | src/gsend.py:207-222 | the part messages, numbered from 0, give back their pieces joined in order to a summary of the same file |
| Receiver.PartPayloadOf | src/gsend.py:213-219 | a part message is recognised as part `i` by any summary of the same file and yields its slice |
| Receiver.PartOfOtherFileRefused | src/gsend.py:216-217 | a part whose body describes another file (name, size, id, checksum or free text) is refused |
| Receiver.SummaryMsgReading | src/gsend.py:224-226 | the summary is recognised as such, has no attachment, and its body reads back as the part count |
| Receiver.ReassembleWithSummary | src/gsend.py:224-229 | a summary that counts the parts before it and announces their size and checksum accepts them |
| Receiver.ZeroLimitLosesFile | src/gsend.py:196-229 | with a limit of 0, `Reassemble` refuses the messages of a non-empty file; by `MsgBuilder.ZeroLimitSummaryOnly`, none of them has an attachment |
| Smtp.ObservableSmtp.constructor | src/gsend.py:39-42 | a new client has sent nothing and reported nothing |
| Smtp.ObservableSmtp.Close | src/gsend.py:75 | `close()` drops the socket and changes nothing else |
| Smtp.ObservableSmtp.Send | src/gsend.py:50-78 | without a socket: the connect error, nothing sent. Otherwise the successive 2048-character slices of the text (which join back to it, `Chunking.ChunksConcat`) go out in order; each pass first reports the amount sent so far. A socket error on slice `k` closes the socket with the first `k` slices sent |
| Smtp.MarksOfChunks | src/gsend.py:61-70 | the `i`-th report is `min(i*2048, len)`, and there are `ceil(len/2048)+1` reports |
| Smtp.SendProgressEnds | src/gsend.py:54-72 | the first report is 0 and the last is the whole length |
| Smtp.SendProgressIncreases | src/gsend.py:61-70 | `sent` strictly increases, never exceeds the length, and grows by at most 2048 per pass |
| Smtp.SendingStep | src/gsend.py:63-69 | a pass that hands a non-empty slice to the socket keeps the loop invariant with `sent` advanced by the slice |
| Smtp.SendingBroken | src/gsend.py:74-76 | a failing `sendall` leaves only the earlier slices sent, with more remaining |
| Smtp.SendingDone | src/gsend.py:71-72 | an empty slice means every slice has gone out |
| Sender.ConnectStep | src/gsend.py:262-285 | `_connect` on values; its properties are `Sender.ConnectOutcome` |
| Sender.DoSendStep | src/gsend.py:294-304 | `_doSend` on values; its properties are `Sender.DoSendOutcome` |
| Sender.Deliver | src/gsend.py:255-259 | the retry loop never sends more messages than it has, nor uses more attempts than it has |
| Sender.ConnectOutcome | src/gsend.py:262-285 | connected afterwards exactly when the old session answered `noop` or a new login went through. A live session is kept without a login, and a new one gets the next number. A failure anywhere (connect, TLS, login) leaves the sender disconnected with the old session object |
| Sender.DoSendOutcome | src/gsend.py:294-304 | `_doSend` returns true exactly when the sender is connected after `_connect` and `sendmail` succeeds; a sender whose believed-connected session is one it logged in stays so, and then succeeds only on an existing session |
| Sender.DeliverBounds | src/gsend.py:247-260 | the loop sends a prefix of the messages with at least one attempt each, and stops short only when the attempts run out |
| Sender.DeliverHealthy | src/gsend.py:250-259 | when every call succeeds, `n` messages take exactly `n` attempts and at most one login, none with a live session |
| Sender.DeliverStep | src/gsend.py:256-259 | one attempt moves to the next message when it sends and retries the same one otherwise |
| Sender.MidwayStep | src/gsend.py:256-259 | one attempt keeps the loop's position consistent with the whole run |
| Sender.MidwayDone | src/gsend.py:250-259 | with every message sent, the loop's state is the run's final state |
| Sender.MidwayStalled | src/gsend.py:256-259 | out of attempts on a message: the run ends there |
| Sender.DeliveriesAppend | src/gsend.py:298 | a successful send adds its delivery after the earlier ones |
| Sender.GSSender.constructor | src/gsend.py:236-245 | the sender starts with no session, not connected, and the builder's limit in bytes; the sender address is the login |
| Sender.GSSender.Connect | src/gsend.py:262-285 | `_connect` moves the session state as `ConnectStep` does and sends nothing |
| Sender.GSSender.Disconnect | src/gsend.py:287-292 | the sender is disconnected afterwards whatever happens; the call fails when there is no session or `quit` fails |
| Sender.GSSender.DoSend | src/gsend.py:294-304 | the session state moves as `DoSendStep` says, and the message is delivered to the given recipients exactly when the call reports success |
| Sender.GSSender.SendFiles | src/gsend.py:247-260 | the messages of all files are delivered in order, each retried until it goes out. The delivered messages are the prefix the retry loop reaches. All are sent exactly when the run reaches their end |
| Sender.GSSender.BuildGroup | src/gsend.py:252 | the messages of file `i` are `buildFileMsgs` of its path, bytes and id |
| Sender.GSSender.SendGroup | src/gsend.py:255-259 | one file's messages are sent in order, continuing the run |
| Sender.GSSender.SendMsgs | src/gsend.py:255-259 | a block of messages is sent in order, continuing the run, or the run stalls on one of them |
| Sender.GSSender.SendOne | src/gsend.py:256-259 | one message is retried until an attempt sends it; the loop is left only then, or when the attempts run out |

## Left out

- MIME structure, base64 encoding of attachments, `Date` and `Message-ID` headers, cc and bcc, and character encodings (`email_encoding`, `fs_encoding`). A message is its sender, recipients, subject, body text and at most one attachment.
- MD5 itself: a function parameter, assumed only to give single-line digests where the receiver lemmas need it (`SingleLineDigests`).
- `uuid.uuid1()`: the file id is a parameter.
- Reading the file from disk: the file's bytes are a parameter, and nobody changes the file while it is open.
- The socket and the SMTP protocol: each outcome is a parameter (`Attempt`, `brokenAt`, `quitOk`), and a session is a number.
- Timing and speed: `time.clock`, `elapsed` and `speed` in `send`, and the progress bar's rendering (see the `Smtp.ObservableSmtp.Send` line below for the division by zero this leaves out).
- `print` output, `traceback` and the debug output of `send`.
- `Main`: configuration, option parsing and the password prompt.
- `buildMsg`: it passes `self` twice and an extra `attachments` argument to `buildBaseMsg`, so it raises `TypeError` and is not part of this model.
- `setProgressBar` and `_updateProgress`: the reports are recorded in `progress` instead of being passed to a callback.
- Sender.GSSender.SendFiles: the source retries forever. The model takes a finite list of attempt outcomes and returns `StillRetrying` when it runs out with messages left.
- Smtp.ObservableSmtp.Send: a report records only `sent`; the `total`, `speed` and `elapsed` arguments are not modelled.
- Smtp.ObservableSmtp.Send: the model assumes that `time.clock()` advances between the start and each `sendall`. Otherwise `speed=sent/elapsed` divides by zero and raises `ZeroDivisionError`. `except socket.error` does not catch that error, so the source's `send` would end right after the first slice with the error propagating and the socket left open.
- Sender.GSSender.Connect: the exceptions of `ehlo`, `starttls` and `ehlo` are one `tlsOk` outcome.
- Sender.GSSender.Disconnect: the exception raised without a session or by `quit` is an `Err` result.
- MsgBuilder.GSMsgBuilder.BuildPartMsgs: requires the cursor at 0, as the one caller leaves it after `seek(0)`, and does not state where the cursor ends.
- Receiver.ReassembleFileMsgs: requires the file name and id to have no line break and the free text not to start with `Package Id: `. The body format cannot be read back otherwise.
