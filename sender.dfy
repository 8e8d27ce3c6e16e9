/**
 * `GSSender`: keeps one SMTP session open across messages, logs in again whenever the session
 * has died, and sends every message of every file in order, retrying each one until it goes out.
 */
module Sender {
  import opened Basics
  import opened MsgBuilder

  /**
   * The outcomes of the network calls that one `_doSend` may make: `noop()` on a session that is
   * believed live; opening the connection (`SMTP(host, port)`); the `ehlo`/`starttls`/`ehlo`
   * exchange when TLS is on; `login`; and `sendmail`.
   */
  datatype Attempt = Attempt(noopOk: bool, connectOk: bool, tlsOk: bool, loginOk: bool, sendOk: bool)

  /** The sender's session state: `self.smtp` (a session number), `self.smtp_connected`, and the number of logins so far. */
  datatype Link = Link(smtp: Option<nat>, connected: bool, logins: nat)

  /** A `sendmail` call that went through: envelope sender, envelope recipients, message. */
  datatype Delivery = Delivery(fromAddr: string, toAddrs: seq<string>, msg: Msg)

  /** A file handed to `sendFiles`: its path, its bytes, and the `uuid1()` string it is given. */
  datatype LocalFile = LocalFile(path: string, content: Bytes, fid: string)

  /** Whether a new session is opened and logged in. */
  predicate LoginSucceeds(tls: bool, a: Attempt)
  {
    a.connectOk && (!tls || a.tlsOk) && a.loginOk
  }

  /** `_connect` on values. */
  function ConnectStep(link: Link, tls: bool, a: Attempt): Link
  {
    if link.connected && a.noopOk then link
    else if LoginSucceeds(tls, a) then Link(Some(link.logins), true, link.logins + 1)
    else link.(connected := false)
  }

  /** `_doSend` on values: the new session state and whether the message went out. */
  function DoSendStep(link: Link, tls: bool, a: Attempt): (Link, bool)
  {
    var after := ConnectStep(link, tls, a);
    (after, after.connected && a.sendOk)
  }

  /** The state reached, the number of messages sent and the number of attempts used. */
  datatype Progress = Progress(link: Link, sent: nat, used: nat)

  /**
   * The retry loop of `sendFiles` on values: `script[0]` is the next `_doSend`; a message is
   * retried until one attempt sends it, and only then does the next message get its turn.
   */
  function Deliver(link: Link, tls: bool, msgs: seq<Msg>, script: seq<Attempt>): (p: Progress)
    ensures p.sent <= |msgs| && p.used <= |script|
    decreases |script|
  {
    if msgs == [] || script == [] then Progress(link, 0, 0)
    else
      var (after, ok) := DoSendStep(link, tls, script[0]);
      var rest := Deliver(after, tls, if ok then msgs[1..] else msgs, script[1..]);
      Progress(rest.link, rest.sent + (if ok then 1 else 0), rest.used + 1)
  }

  /** The `sendmail` calls that deliver `msgs` in order. */
  function Deliveries(fromAddr: string, toAddrs: seq<string>, msgs: seq<Msg>): seq<Delivery>
  {
    Mapped(m => Delivery(fromAddr, toAddrs, m), msgs)
  }

  /** The messages `buildFileMsgs` makes of one file, with no additional text. */
  function FileMsgsOf(md5: Md5, maxAttSize: int, fromAddr: string, f: LocalFile): seq<Msg>
  {
    FileMsgs(md5, maxAttSize, fromAddr, Basename(f.path), f.fid, "", f.content)
  }

  /** The messages of each file in turn. */
  function MsgGroups(md5: Md5, maxAttSize: int, fromAddr: string, files: seq<LocalFile>): seq<seq<Msg>>
  {
    Mapped(f => FileMsgsOf(md5, maxAttSize, fromAddr, f), files)
  }

  // ---------------------------------------------------------------------------------------
  // Properties of a connection attempt and of one send.

  /**
   * After `_connect` the sender believes it is connected exactly when the old session answered
   * `noop` or a new login went through; a live session is kept (no new login), a new session
   * gets the next number, and a failed attempt leaves the sender disconnected and its session as it was.
   */
  lemma ConnectOutcome(link: Link, tls: bool, a: Attempt)
    ensures var after := ConnectStep(link, tls, a);
            && (after.connected <==> (link.connected && a.noopOk) || LoginSucceeds(tls, a))
            && (link.connected && a.noopOk ==> after == link)
            && (after.logins == link.logins + 1 <==> !(link.connected && a.noopOk) && LoginSucceeds(tls, a))
            && after.logins >= link.logins
            && (!after.connected ==> after.smtp == link.smtp)
            && (after.logins > link.logins ==> after.smtp == Some(link.logins))
  {
  }

  /** A session the sender believes connected is one it logged in: its number is below the number of logins. */
  predicate Live(link: Link)
  {
    link.connected ==> link.smtp.Some? && link.smtp.value < link.logins
  }

  /** `_doSend` reports success exactly when `sendmail` ran on a connected session and did not fail. */
  lemma DoSendOutcome(link: Link, tls: bool, a: Attempt)
    ensures var (after, ok) := DoSendStep(link, tls, a);
            (ok <==> after.connected && a.sendOk) && (Live(link) ==> Live(after) && (ok ==> after.smtp.Some?))
  {
    ConnectOutcome(link, tls, a);
  }

  // ---------------------------------------------------------------------------------------
  // Properties of the retry loop.

  /**
   * The loop sends a prefix of the messages, one attempt at most per send and never more
   * attempts than the script holds, and it stops short of the last message only when the
   * attempts have run out.
   */
  lemma {:induction false} DeliverBounds(link: Link, tls: bool, msgs: seq<Msg>, script: seq<Attempt>)
    ensures var p := Deliver(link, tls, msgs, script);
            && p.sent <= |msgs| && p.sent <= p.used <= |script|
            && (p.sent < |msgs| ==> p.used == |script|)
    decreases |script|
  {
    if msgs != [] && script != [] {
      var (after, ok) := DoSendStep(link, tls, script[0]);
      DeliverBounds(after, tls, if ok then msgs[1..] else msgs, script[1..]);
    }
  }

  /** An attempt in which every call succeeds. */
  predicate Healthy(a: Attempt)
  {
    a.noopOk && a.connectOk && a.tlsOk && a.loginOk && a.sendOk
  }

  /**
   * When every attempt succeeds, every message goes out on the first try: `n` messages take
   * exactly `n` attempts, at most one login serves them all, and none when a session is live.
   */
  lemma {:induction false} DeliverHealthy(link: Link, tls: bool, msgs: seq<Msg>, script: seq<Attempt>)
    requires |msgs| <= |script| && forall i :: 0 <= i < |script| ==> Healthy(script[i])
    ensures var p := Deliver(link, tls, msgs, script);
            && p.sent == |msgs| && p.used == |msgs|
            && (msgs != [] ==> p.link.connected)
            && p.link.logins <= link.logins + 1
            && (link.connected ==> p.link.logins == link.logins)
    decreases |script|
  {
    if msgs != [] {
      var (after, ok) := DoSendStep(link, tls, script[0]);
      assert after.connected && ok;
      assert after.logins <= link.logins + 1;
      assert link.connected ==> after == link;
      DeliverHealthy(after, tls, msgs[1..], script[1..]);
    }
  }

  /** One attempt of the loop, seen from the middle of the message and attempt lists. */
  lemma DeliverStep(link: Link, tls: bool, msgs: seq<Msg>, k: nat, script: seq<Attempt>, j: nat)
    requires k < |msgs| && j < |script|
    ensures var (after, ok) := DoSendStep(link, tls, script[j]);
            var rest := Deliver(after, tls, msgs[if ok then k + 1 else k..], script[j + 1..]);
            Deliver(link, tls, msgs[k..], script[j..]) == Progress(rest.link, rest.sent + (if ok then 1 else 0), rest.used + 1)
  {
    assert msgs[k..][1..] == msgs[k + 1..];
    assert script[j..][1..] == script[j + 1..];
  }

  /** Where the loop stands: `k` messages sent with `j` attempts, the rest of the run still to come. */
  ghost predicate Midway(start: Link, tls: bool, msgs: seq<Msg>, script: seq<Attempt>, now: Link, k: nat, j: nat)
  {
    k <= |msgs| && j <= |script| &&
    var total := Deliver(start, tls, msgs, script);
    var rest := Deliver(now, tls, msgs[k..], script[j..]);
    total.link == rest.link && total.sent == k + rest.sent && total.used == j + rest.used
  }

  /** One attempt moves the loop on: to the next message when it sends, to the next attempt either way. */
  lemma MidwayStep(start: Link, tls: bool, msgs: seq<Msg>, script: seq<Attempt>, now: Link, k: nat, j: nat)
    requires k < |msgs| && j < |script| && Midway(start, tls, msgs, script, now, k, j)
    ensures var (after, ok) := DoSendStep(now, tls, script[j]);
            Midway(start, tls, msgs, script, after, if ok then k + 1 else k, j + 1)
  {
    DeliverStep(now, tls, msgs, k, script, j);
  }

  lemma DeliveriesAppend(fromAddr: string, toAddrs: seq<string>, msgs: seq<Msg>, k: nat)
    requires k < |msgs|
    ensures Deliveries(fromAddr, toAddrs, msgs[..k + 1]) == Deliveries(fromAddr, toAddrs, msgs[..k]) + [Delivery(fromAddr, toAddrs, msgs[k])]
  {
    MappedSnoc(m => Delivery(fromAddr, toAddrs, m), msgs, k);
  }

  /** The run is over with `k` messages sent: the attempts ran out on message `k`. */
  ghost predicate Stalled(start: Link, tls: bool, msgs: seq<Msg>, script: seq<Attempt>, now: Link, k: nat)
  {
    var total := Deliver(start, tls, msgs, script);
    total.link == now && total.sent == k && k < |msgs|
  }

  lemma MidwayStalled(start: Link, tls: bool, msgs: seq<Msg>, script: seq<Attempt>, now: Link, k: nat)
    requires k < |msgs| && Midway(start, tls, msgs, script, now, k, |script|)
    ensures Stalled(start, tls, msgs, script, now, k)
  {
    assert script[|script|..] == [];
  }

  /** Midway with every message sent: the run is complete. */
  lemma MidwayDone(start: Link, tls: bool, msgs: seq<Msg>, script: seq<Attempt>, now: Link, j: nat)
    requires Midway(start, tls, msgs, script, now, |msgs|, j)
    ensures Deliver(start, tls, msgs, script).link == now && Deliver(start, tls, msgs, script).sent == |msgs|
  {
    assert msgs[|msgs|..] == [];
  }

  datatype SendOutcome = AllSent | StillRetrying

  class GSSender {
    const host: string
    const port: int
    const login: string
    const fromAddr: string
    const paswd: string
    const tls: bool
    const builder: GSMsgBuilder
    var smtp: Option<nat>
    var smtpConnected: bool
    var logins: nat
    /** Every `sendmail` call that went through, in order. */
    var delivered: seq<Delivery>

    function State(): Link
      reads this
    {
      Link(smtp, smtpConnected, logins)
    }

    constructor (host: string, port: int, login: string, paswd: string, attachmentSize: int, md5: Md5, tls: bool)
      ensures this.host == host && this.port == port && this.login == login && fromAddr == login
      ensures this.paswd == paswd && this.tls == tls
      ensures builder.maxAttSize == attachmentSize * SizeOfMegaByte && builder.md5 == md5
      ensures smtp == None && !smtpConnected && logins == 0 && delivered == []
    {
      this.host := host;
      this.port := port;
      this.login := login;
      fromAddr := login;
      this.paswd := paswd;
      this.tls := tls;
      smtp := None;
      smtpConnected := false;
      logins := 0;
      delivered := [];
      builder := new GSMsgBuilder(attachmentSize, md5);
    }

    /**
     * `_connect`: keeps a session that answers `noop`; otherwise opens a new one, with TLS when
     * configured, and logs in. A failure anywhere is reported and swallowed.
     */
    method Connect(a: Attempt)
      modifies this
      ensures State() == ConnectStep(old(State()), tls, a) && delivered == old(delivered)
    {
      if smtpConnected {
        if a.noopOk {
          return;
        }
        smtpConnected := false;
      }
      var up := a.connectOk;
      if up && tls {
        up := a.tlsOk;
      }
      if up && a.loginOk {
        smtp := Some(logins);
        logins := logins + 1;
        smtpConnected := true;
      }
    }

    /**
     * `_disconnect`: marks the sender disconnected, then quits the session. Without a session,
     * or when `quit` fails, the error propagates; the sender is disconnected either way.
     */
    method Disconnect(quitOk: bool) returns (r: Result<(), string>)
      modifies this
      ensures !smtpConnected && smtp == old(smtp) && logins == old(logins) && delivered == old(delivered)
      ensures r.Ok? <==> old(smtp).Some? && quitOk
    {
      smtpConnected := false;
      if smtp.None? {
        return Err("no SMTP session");
      }
      if !quitOk {
        return Err("quit failed");
      }
      return Ok(());
    }

    /**
     * `_doSend`: connects if need be and, when connected, hands the message to `sendmail` for
     * the given recipients. True exactly when `sendmail` went through.
     */
    method DoSend(toAddrs: seq<string>, msg: Msg, a: Attempt) returns (ok: bool)
      modifies this
      ensures (State(), ok) == DoSendStep(old(State()), tls, a)
      ensures delivered == old(delivered) + if ok then [Delivery(fromAddr, toAddrs, msg)] else []
    {
      Connect(a);
      if smtpConnected {
        if a.sendOk {
          delivered := delivered + [Delivery(fromAddr, toAddrs, msg)];
          return true;
        }
      }
      return false;
    }

    /**
     * `sendFiles`: builds the messages of each file in turn and sends them in order, retrying each
     * until `_doSend` succeeds. `script` supplies the outcome of every `_doSend` in turn; when it
     * runs out with messages left, the source would go on retrying, and the model stops there.
     */
    method SendFiles(toAddrs: seq<string>, files: seq<LocalFile>, script: seq<Attempt>)
      returns (outcome: SendOutcome)
      modifies this
      ensures var msgs := Concat(MsgGroups(builder.md5, builder.maxAttSize, fromAddr, files));
              var run := Deliver(old(State()), tls, msgs, script);
              && State() == run.link
              && delivered == old(delivered) + Deliveries(fromAddr, toAddrs, msgs[..run.sent])
              && (outcome == AllSent <==> run.sent == |msgs|)
    {
      ghost var groups := MsgGroups(builder.md5, builder.maxAttSize, fromAddr, files);
      ghost var all := Concat(groups);
      ghost var start := State();
      ghost var k: nat := 0;
      var j := 0;
      var fi := 0;
      assert groups[..0] == [];
      while fi < |files|
        invariant fi <= |files| && k == |Concat(groups[..fi])|
        invariant Midway(start, tls, all, script, State(), k, j)
        invariant delivered == old(delivered) + Deliveries(fromAddr, toAddrs, all[..k])
      {
        var msgs := BuildGroup(toAddrs, files, fi);
        var allSent;
        allSent, j, k := SendGroup(toAddrs, msgs, script, j, start, groups, fi, k, old(delivered));
        if !allSent {
          return StillRetrying;
        }
        fi := fi + 1;
      }
      assert groups[..fi] == groups;
      MidwayDone(start, tls, all, script, State(), j);
      return AllSent;
    }

    /** `buildFileMsgs` on file `i`. */
    method BuildGroup(toAddrs: seq<string>, files: seq<LocalFile>, i: nat) returns (msgs: seq<Msg>)
      requires i < |files|
      ensures msgs == MsgGroups(builder.md5, builder.maxAttSize, fromAddr, files)[i]
    {
      var f := files[i];
      msgs := builder.BuildFileMsgs(fromAddr, toAddrs, f.path, f.content, f.fid, "");
      MappedAt(f => FileMsgsOf(builder.md5, builder.maxAttSize, fromAddr, f), files, i);
    }

    /** The messages of one file, group `fi` of `groups`, sent from attempt `j` on. */
    method SendGroup(toAddrs: seq<string>, msgs: seq<Msg>, script: seq<Attempt>, j: nat, ghost start: Link,
                     ghost groups: seq<seq<Msg>>, ghost fi: nat, ghost k: nat, ghost before: seq<Delivery>)
      returns (allSent: bool, j': nat, ghost stop: nat)
      requires fi < |groups| && msgs == groups[fi] && k == |Concat(groups[..fi])|
      requires Midway(start, tls, Concat(groups), script, State(), k, j)
      requires delivered == before + Deliveries(fromAddr, toAddrs, Concat(groups)[..k])
      modifies this
      ensures var all := Concat(groups);
              && k <= stop <= |all| && delivered == before + Deliveries(fromAddr, toAddrs, all[..stop])
              && (allSent ==> stop == |Concat(groups[..fi + 1])| && Midway(start, tls, all, script, State(), stop, j'))
              && (!allSent ==> Stalled(start, tls, all, script, State(), stop))
    {
      ConcatPlace(groups, fi);
      allSent, j', stop := SendMsgs(toAddrs, msgs, script, j, start, Concat(groups), k, before);
    }

    /** The messages `all[k..k + |msgs|]`, each retried until it goes out, from attempt `j` on. */
    method SendMsgs(toAddrs: seq<string>, msgs: seq<Msg>, script: seq<Attempt>, j: nat,
                    ghost start: Link, ghost all: seq<Msg>, ghost k: nat, ghost before: seq<Delivery>)
      returns (allSent: bool, j': nat, ghost stop: nat)
      requires k + |msgs| <= |all| && all[k..k + |msgs|] == msgs
      requires Midway(start, tls, all, script, State(), k, j)
      requires delivered == before + Deliveries(fromAddr, toAddrs, all[..k])
      modifies this
      ensures k <= stop <= |all| && delivered == before + Deliveries(fromAddr, toAddrs, all[..stop])
      ensures allSent ==> stop == k + |msgs| && Midway(start, tls, all, script, State(), stop, j')
      ensures !allSent ==> Stalled(start, tls, all, script, State(), stop)
    {
      j' := j;
      stop := k;
      var mi := 0;
      while mi < |msgs|
        invariant mi <= |msgs| && stop == k + mi
        invariant Midway(start, tls, all, script, State(), stop, j')
        invariant delivered == before + Deliveries(fromAddr, toAddrs, all[..stop])
      {
        assert all[stop] == msgs[mi];
        var sent;
        sent, j' := SendOne(toAddrs, msgs[mi], script, j', start, all, stop, before);
        if !sent {
          return false, j', stop;
        }
        mi := mi + 1;
        stop := stop + 1;
      }
      return true, j', stop;
    }

    /** One message, retried with the attempts from `j` on until one sends it or none are left. */
    method SendOne(toAddrs: seq<string>, msg: Msg, script: seq<Attempt>, j: nat,
                   ghost start: Link, ghost all: seq<Msg>, ghost p: nat, ghost before: seq<Delivery>)
      returns (sent: bool, j': nat)
      requires p < |all| && all[p] == msg
      requires Midway(start, tls, all, script, State(), p, j)
      requires delivered == before + Deliveries(fromAddr, toAddrs, all[..p])
      modifies this
      ensures sent ==> Midway(start, tls, all, script, State(), p + 1, j')
                       && delivered == before + Deliveries(fromAddr, toAddrs, all[..p + 1])
      ensures !sent ==> Stalled(start, tls, all, script, State(), p)
                        && delivered == before + Deliveries(fromAddr, toAddrs, all[..p])
    {
      j' := j;
      while true
        invariant Midway(start, tls, all, script, State(), p, j')
        invariant delivered == before + Deliveries(fromAddr, toAddrs, all[..p])
        decreases |script| - j'
      {
        if j' == |script| {
          MidwayStalled(start, tls, all, script, State(), p);
          return false, j';
        }
        MidwayStep(start, tls, all, script, State(), p, j');
        var ok := DoSend(toAddrs, msg, script[j']);
        j' := j' + 1;
        if ok {
          DeliveriesAppend(fromAddr, toAddrs, all, p);
          return true, j';
        }
      }
    }
  }
}
