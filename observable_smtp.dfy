/**
 * `ObservableSMTP.send`: the SMTP client's `send` replaced by a loop that hands the outgoing text
 * to the socket 2048 characters at a time and reports, before every pass, how much has gone out.
 */
module Smtp {
  import opened Basics
  import opened Chunking

  /** The size of every slice handed to `sendall`. */
  const SendBufferSize: nat := 2048

  /** `marks[i]`: how much of the text has gone out once the first `i` pieces have. */
  function Marks<T>(pieces: seq<seq<T>>): (marks: seq<nat>)
    ensures |marks| == |pieces| + 1
  {
    seq(|pieces| + 1, i requires 0 <= i <= |pieces| => |Concat(pieces[..i])|)
  }

  lemma MarkAt<T>(pieces: seq<seq<T>>, i: nat)
    requires i <= |pieces|
    ensures Marks(pieces)[i] == |Concat(pieces[..i])|
  {
  }

  /** The marks of the first `k` pieces are the first `k + 1` marks of all of them. */
  lemma MarksOfPrefix<T>(pieces: seq<seq<T>>, k: nat)
    requires k <= |pieces|
    ensures Marks(pieces[..k]) == Marks(pieces)[..k + 1]
  {
    forall i | 0 <= i <= k
      ensures Marks(pieces[..k])[i] == Marks(pieces)[i]
    {
      assert pieces[..k][..i] == pieces[..i];
      MarkAt(pieces[..k], i);
      MarkAt(pieces, i);
    }
  }

  /** The marks before the last piece, then the total. */
  lemma MarksLast<T>(pieces: seq<seq<T>>)
    ensures Marks(pieces)[..|pieces|] + [|Concat(pieces)|] == Marks(pieces)
  {
    MarkAt(pieces, |pieces|);
    assert pieces[..|pieces|] == pieces;
  }

  /**
   * The amounts reported for a text sent in slices of `buff`: the `i`-th report is
   * `min(i * buff, |str|)`, and there is one report more than there are slices.
   */
  lemma MarksOfChunks(str: string, buff: int, i: nat)
    requires buff > 0 && i <= |Chunks(str, buff)|
    ensures |Marks(Chunks(str, buff))| == CeilDiv(|str|, buff) + 1
    ensures Marks(Chunks(str, buff))[i] == Min(i * buff, |str|)
  {
    ChunksCount(str, buff);
    MarkAt(Chunks(str, buff), i);
    PrefixLength(str, buff, i);
    OffsetIsProduct(i, buff);
  }

  /** The first report is 0 and the last is the whole length. */
  lemma SendProgressEnds(str: string, buff: int)
    requires buff > 0
    ensures var marks := Marks(Chunks(str, buff));
            |marks| == CeilDiv(|str|, buff) + 1 && marks[0] == 0 && marks[|marks| - 1] == |str|
  {
    var pieces := Chunks(str, buff);
    var n := |pieces|;
    ChunksCountBounds(str, buff);
    MarksOfChunks(str, buff, 0);
    MarksOfChunks(str, buff, n);
  }

  /**
   * The reports strictly increase, never exceed the length, and consecutive ones differ by at
   * most one slice.
   */
  lemma SendProgressIncreases(str: string, buff: int, i: nat, j: nat)
    requires buff > 0 && i < j <= CeilDiv(|str|, buff)
    ensures var marks := Marks(Chunks(str, buff));
            && j < |marks| && marks[i] < marks[j] <= |str|
            && (j == i + 1 ==> marks[j] - marks[i] <= buff)
  {
    ChunksCount(str, buff);
    MarksOfChunks(str, buff, i);
    MarksOfChunks(str, buff, j);
    ChunkAt(str, buff, i);
    MulMonotone(i + 1, j, buff);
    assert (i + 1) * buff == i * buff + buff;
  }

  lemma MulMonotone(a: nat, b: nat, c: nat)
    requires a <= b
    ensures a * c <= b * c
  {
  }

  /**
   * The state of a `send` loop after `sent` characters have gone out in the slices `done`:
   * `wire` and `progress` are what they were before the call followed by those slices and the
   * amounts reported before each of them.
   */
  ghost predicate Sending(str: string, buff: int, sent: nat, done: seq<string>,
                          wire: seq<string>, progress: seq<nat>, wire0: seq<string>, progress0: seq<nat>)
  {
    && ReadProgress(str, sent, buff, done) && Concat(done) == str[..sent]
    && wire == wire0 + done && progress == progress0 + Marks(done)[..|done|]
  }

  lemma SendingStart(str: string, buff: int, wire: seq<string>, progress: seq<nat>)
    ensures Sending(str, buff, 0, [], wire, progress, wire, progress)
  {
    ReadProgressStart(str, buff);
  }

  /** A pass that hands a non-empty slice to the socket. */
  lemma SendingStep(str: string, buff: int, sent: nat, done: seq<string>, wire: seq<string>,
                    progress: seq<nat>, wire0: seq<string>, progress0: seq<nat>, data: string)
    requires Sending(str, buff, sent, done, wire, progress, wire0, progress0)
    requires buff > 0 && data == str[sent..Min(sent + buff, |str|)] && data != []
    ensures Sending(str, buff, sent + |data|, done + [data], wire + [data], progress + [sent], wire0, progress0)
  {
    ReadProgressStep(str, sent, buff, done, data);
    ConcatAppend(done, data);
    assert str[..sent] + data == str[..sent + |data|];
    MarksOfPrefix(done + [data], |done|);
    assert (done + [data])[..|done|] == done;
    MarksLast(done);
  }

  /** A pass whose slice the socket refuses: the slices before it are the first ones, and more remain. */
  lemma SendingBroken(str: string, buff: int, sent: nat, done: seq<string>, wire: seq<string>,
                      progress: seq<nat>, wire0: seq<string>, progress0: seq<nat>)
    requires Sending(str, buff, sent, done, wire, progress, wire0, progress0)
    requires ReadLen(|str| - sent, buff) > 0
    ensures var pieces := Chunks(str, buff);
            && |done| < |pieces| && wire == wire0 + pieces[..|done|]
            && progress + [sent] == progress0 + Marks(pieces)[..|done| + 1]
  {
    ReadProgressPrefix(str, sent, buff, done);
    MarksOfPrefix(Chunks(str, buff), |done|);
    MarksLast(done);
  }

  /** A pass with nothing left to send: every slice has gone out, with every report. */
  lemma SendingDone(str: string, buff: int, sent: nat, done: seq<string>, wire: seq<string>,
                    progress: seq<nat>, wire0: seq<string>, progress0: seq<nat>)
    requires Sending(str, buff, sent, done, wire, progress, wire0, progress0)
    requires ReadLen(|str| - sent, buff) == 0
    ensures var pieces := Chunks(str, buff);
            wire == wire0 + pieces && progress + [sent] == progress0 + Marks(pieces)
  {
    ReadProgressDone(str, sent, buff, done);
    MarksLast(done);
  }

  class ObservableSmtp {
    /** Whether `self.sock` is set: `connect()` sets it, `close()` clears it. */
    var sockOpen: bool
    /**
     * The slices of every `sendall` call that returned, in order. A `sendall` that fails may
     * already have sent part of its slice; that part is not recorded.
     */
    var wire: seq<string>
    /** The `sent` amount of every progress report, in order. */
    var progress: seq<nat>

    constructor (connected: bool)
      ensures sockOpen == connected && wire == [] && progress == []
    {
      sockOpen := connected;
      wire := [];
      progress := [];
    }

    /** `close()`: drops the socket. */
    method Close()
      modifies this
      ensures !sockOpen && wire == old(wire) && progress == old(progress)
    {
      sockOpen := false;
    }

    /**
     * `send(str)`. `brokenAt` stands for the socket: the number of the `sendall` call of this
     * `send` that raises `socket.error`, if one does. Without a socket nothing is sent. Otherwise
     * the slices of 2048 characters go out in order, each pass reporting the amount sent so far;
     * a socket error closes the connection and ends the send with the slices before it sent.
     */
    method Send(str: string, brokenAt: Option<nat>) returns (r: Result<(), string>)
      modifies this
      ensures !old(sockOpen) ==>
                r == Err("please run connect() first") && !sockOpen && wire == old(wire) && progress == old(progress)
      ensures old(sockOpen) ==>
                var pieces := Chunks(str, SendBufferSize);
                if brokenAt.Some? && brokenAt.value < |pieces| then
                  && r == Err("Server not connected") && !sockOpen
                  && wire == old(wire) + pieces[..brokenAt.value]
                  && progress == old(progress) + Marks(pieces)[..brokenAt.value + 1]
                else
                  && r == Ok(()) && sockOpen
                  && wire == old(wire) + pieces
                  && progress == old(progress) + Marks(pieces)
    {
      if !sockOpen {
        return Err("please run connect() first");
      }
      var total := |str|;
      var sent: nat := 0;
      var buff := SendBufferSize;
      var calls: nat := 0;
      ghost var done: seq<string> := [];
      SendingStart(str, buff, wire, progress);
      while true
        invariant sockOpen && sent <= total && calls == |done|
        invariant Sending(str, buff, sent, done, wire, progress, old(wire), old(progress))
        invariant brokenAt.Some? ==> calls <= brokenAt.value
        decreases total - sent
      {
        var begin, end := sent, sent + buff;
        var data := str[begin..Min(end, total)];
        if |data| > 0 {
          if brokenAt == Some(calls) {
            SendingBroken(str, buff, sent, done, wire, progress, old(wire), old(progress));
            progress := progress + [sent];
            Close();
            return Err("Server not connected");
          }
          SendingStep(str, buff, sent, done, wire, progress, old(wire), old(progress), data);
          progress := progress + [sent];
          wire := wire + [data];
          done := done + [data];
          calls := calls + 1;
          sent := sent + |data|;
        } else {
          SendingDone(str, buff, sent, done, wire, progress, old(wire), old(progress));
          progress := progress + [sent];
          break;
        }
      }
      return Ok(());
    }
  }
}
