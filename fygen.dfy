/**
 * The minimalist FY-series driver: every setting is written as
 * `W<ch><cmd><value>` and confirmed by reading it back with `R<ch><cmd>`,
 * retried a fixed number of times; an empty reply makes the line be sent
 * again. Load impedances live in a dictionary keyed by channel. The serial
 * port is a connected flag, a log of the lines written and a queue of the
 * replies the generator will give (an exhausted queue reads as the empty
 * reply of a timeout).
 */
module Fygen {
  import opened Wrappers
  import opened AwgCommon
  import opened PyText

  /** RETRY_COUNT: write attempts after a failed first read-back. */
  const RetryCount: nat := 2

  /** _send's default retry_count: resends after an empty reply. */
  const SendRetries: nat := 5

  /** Loads above this many ohms count as Hi-Z. */
  const MaxZ: real := 10000000.0

  /**
   * The two retry bounds: _send's resends after an empty reply and
   * _retry's write attempts after a failed first read-back.
   */
  datatype Limits = Limits(resends: nat, attempts: nat)

  const Defaults: Limits := Limits(SendRetries, RetryCount)

  /** One line written to the generator: a read-back `R<ch><cmd>` or a setting `W<ch><cmd><value>`. */
  datatype Line = Query(ch: char, command: string) | Setting(ch: char, command: string, value: Value)

  /** The next reply on the line; "" once the generator has nothing more to say. */
  function Next(replies: seq<string>): string
  {
    if replies == [] then "" else replies[0]
  }

  function Rest(replies: seq<string>): seq<string>
  {
    if replies == [] then [] else replies[1..]
  }

  /** The lines one exchange wrote, the replies left after it, and the last reply as read (before stripping). */
  datatype Exchange = Exchange(lines: seq<Line>, rest: seq<string>, reply: string)

  /** _send(line, retries): write, read; an empty reply sends the line again while retries remain. */
  function Sent(line: Line, replies: seq<string>, retries: nat): Exchange
    decreases retries
  {
    var got := Next(replies);
    if got == [] && retries > 0 then
      var e := Sent(line, Rest(replies), retries - 1);
      Exchange([line] + e.lines, e.rest, e.reply)
    else
      Exchange([line], Rest(replies), got)
  }

  /** got.index('.'): the position of the first '.'. */
  function IndexOf(s: string, c: char): (k: nat)
    requires c in s
    ensures k < |s| && s[k] == c && c !in s[..k]
  {
    if s[0] == c then 0 else 1 + IndexOf(s[1..], c)
  }

  /** match_hz_only: the reply has a '.' and its whole-hertz part equals the expected text. */
  predicate MatchHzOnly(m: string, got: string)
  {
    '.' in got && m == got[..IndexOf(got, '.')]
  }

  /** How a reply is compared with the expected text. */
  datatype Matcher = Exact | HzOnly

  predicate Matches(matcher: Matcher, m: string, got: string)
  {
    match matcher
    case Exact => m == got
    case HzOnly => MatchHzOnly(m, got)
  }

  /** What a setter hands to _retry: the command letter, the value to write, the expected read-back and how to compare. */
  datatype Request = Request(command: string, value: Value, readBack: string, matcher: Matcher)

  /** Whether a stripped reply confirms the request. */
  predicate Confirms(q: Request, got: string)
  {
    Matches(q.matcher, q.readBack, got)
  }

  /** What a run of attempts wrote, the replies left, and whether a read-back matched. */
  datatype Retried = Retried(lines: seq<Line>, rest: seq<string>, matched: bool)

  /** The k attempts left in _retry's loop: write the setting, read it back, stop at a match. */
  function Attempts(n: nat, ch: char, q: Request, replies: seq<string>, k: nat): Retried
    decreases k
  {
    if k == 0 then Retried([], replies, false)
    else
      var w := Sent(Setting(ch, q.command, q.value), replies, n);
      var r := Sent(Query(ch, q.command), w.rest, n);
      if Confirms(q, Strip(r.reply)) then Retried(w.lines + r.lines, r.rest, true)
      else
        var a := Attempts(n, ch, q, r.rest, k - 1);
        Retried(w.lines + r.lines + a.lines, a.rest, a.matched)
  }

  /** _retry on one channel letter: a first read-back, then RETRY_COUNT attempts if it did not match. */
  function Polled(lim: Limits, ch: char, q: Request, replies: seq<string>): Retried
  {
    var p := Sent(Query(ch, q.command), replies, lim.resends);
    if Confirms(q, Strip(p.reply)) then Retried(p.lines, p.rest, true)
    else
      var a := Attempts(lim.resends, ch, q, p.rest, lim.attempts);
      Retried(p.lines + a.lines, a.rest, a.matched)
  }

  /** What a driver call wrote, the replies left, and the exception it ended in. */
  datatype Run = Run(lines: seq<Line>, rest: seq<string>, err: Option<Fault>)

  /**
   * _retry(channel, …): channel 0 runs channel 1 and then channel 2 with
   * plain equality, dropping any match_fn; 1 and 2 are the letters M and F;
   * anything else is refused. A disconnected port fails on the first
   * write, and running out of attempts ends in the NameError on `sys`.
   */
  function RetryRun(lim: Limits, connected: bool, ch: Channel, q: Request, replies: seq<string>): Run
    decreases if ch == Some(0) then 1 else 0
  {
    if ch == Some(0) then
      var first := RetryRun(lim, connected, Some(1), q.(matcher := Exact), replies);
      if first.err.Some? then first
      else
        var second := RetryRun(lim, connected, Some(2), q.(matcher := Exact), first.rest);
        Run(first.lines + second.lines, second.rest, second.err)
    else if ch != Some(1) && ch != Some(2) then Run([], replies, Some(UnknownChannel))
    else if !connected then Run([], replies, Some(NoPort))
    else
      var p := Polled(lim, if ch == Some(1) then 'M' else 'F', q, replies);
      Run(p.lines, p.rest, if p.matched then None else Some(MissingSys))
  }

  /** What set_load_impedance stores: None (Hi-Z) for Hi-Z and for loads above 10 Mohm. */
  function StoredLoad(z: Impedance): Option<real>
  {
    match z
    case HiZ => None
    case Ohms(r) => if r > MaxZ then None else Some(r)
  }

  /**
   * _apply_load_impedance: a channel with no entry is refused; Hi-Z and a
   * zero load (falsy) leave the voltage alone; otherwise it is scaled by
   * (R_IN + z)/z.
   */
  function ApplyLoad(loads: map<Channel, Option<real>>, ch: Channel, v: real): Result<real, Fault>
  {
    if ch !in loads then Failure(UnknownChannel)
    else match loads[ch]
      case None => Success(v)
      case Some(z) => if z == 0.0 then Success(v) else Success(v * (RIn + z) / z)
  }

  /** The expected offset read-back: thousandths of a volt, negatives as 32-bit two's complement. */
  function OffsetWord(offset: real): int
  {
    var n := Trunc(RoundTo(offset, 1000.0) * 1000.0);
    if n < 0 then 0x1_0000_0000 + n else n
  }

  /** enable_output: `N`, "1" and read-back "255" for on, "0" and "0" for off. */
  function EnableRequest(on: bool): Request
  {
    Request("N", Str(if on then "1" else "0"), if on then "255" else "0", Exact)
  }

  /** set_frequency: `F`, micro-hertz as "%014u", confirmed on the whole hertz "%08u" only. */
  function FrequencyRequest(freq: real): Request
  {
    Request("F", Str(PaddedInt(Trunc(freq * 1000000.0), 14)), PaddedInt(Trunc(freq), 8), HzOnly)
  }

  /** set_phase: `P`, the phase as "%.3f", confirmed as millidegrees "%u". */
  function PhaseRequest(phase: real): Request
  {
    Request("P", Fixed(phase, 3), IntText(Trunc(phase * 1000.0)), Exact)
  }

  /** set_wave_type: `W`, always a sine, whatever type was asked for. */
  const WaveRequest: Request := Request("W", Str("0"), "0", Exact)

  /** set_amplitue: `A`, the volts rounded to 4 places, confirmed in tenths of a millivolt. */
  function AmplitudeRequest(volts: real): Request
  {
    var v := RoundTo(volts, 10000.0);
    Request("A", Fixed(v, 4), IntText(Trunc(v * 10000.0)), Exact)
  }

  /** set_offset: `O`, the volts as "%.3f", confirmed by their unsigned word. */
  function OffsetRequest(offset: real): Request
  {
    Request("O", Fixed(offset, 3), IntText(OffsetWord(offset)), Exact)
  }

  /** One turn of _retry's loop: write, read back, and stop or go on with one attempt fewer. */
  lemma AttemptOnce(n: nat, ch: char, q: Request, replies: seq<string>, k: nat)
    requires k > 0
    ensures var w := Sent(Setting(ch, q.command, q.value), replies, n);
      var r := Sent(Query(ch, q.command), w.rest, n);
      var a := Attempts(n, ch, q, r.rest, k - 1);
      Attempts(n, ch, q, replies, k)
        == if Confirms(q, Strip(r.reply)) then Retried(w.lines + r.lines, r.rest, true)
           else Retried(w.lines + r.lines + a.lines, a.rest, a.matched)
  {
  }

  lemma Appended(a: seq<Line>, b: seq<Line>, c: seq<Line>)
    ensures (a + b) + c == a + (b + c) && a + [] == a && [] + c == c
  {
  }

  class FygenAWG {
    const serialPath: string
    const baudRate: int
    const limits: Limits
    var connected: bool
    var written: seq<Line>
    var replies: seq<string>
    var loadImpedance: map<Channel, Option<real>>

    /** Not connected, both channels Hi-Z; the generator's future replies are given. */
    constructor(serialPath: string, baudRate: int, replies: seq<string>)
      ensures this.serialPath == serialPath && this.baudRate == baudRate && limits == Defaults && !connected
      ensures written == [] && this.replies == replies
      ensures loadImpedance == map[Some(1) := None, Some(2) := None]
    {
      this.serialPath := serialPath;
      this.baudRate := baudRate;
      limits := Defaults;
      connected := false;
      written := [];
      this.replies := replies;
      loadImpedance := map[Some(1) := None, Some(2) := None];
    }

    /** Opens the port unless it is already open. */
    method Connect()
      modifies this`connected
      ensures connected
    {
      if !connected {
        connected := true;
      }
    }

    /** Closes the port if it is open; otherwise nothing happens. */
    method Disconnect()
      modifies this`connected
      ensures !connected
    {
      if connected {
        connected := false;
      }
    }

    /** _send: writes the line, reads a reply, and recurses on an empty one; the answer comes back stripped. */
    method Send(line: Line, retries: nat) returns (response: string)
      modifies this`written, this`replies
      ensures var e := Sent(line, old(replies), retries);
        written == old(written) + e.lines && replies == e.rest && response == Strip(e.reply)
      decreases retries
    {
      ghost var e := Sent(line, replies, retries);
      written := written + [line];
      var got := Next(replies);
      replies := Rest(replies);
      if got == [] && retries > 0 {
        ghost var tail := Sent(line, replies, retries - 1);
        assert e == Exchange([line] + tail.lines, tail.rest, tail.reply);
        response := Send(line, retries - 1);
        Appended(old(written), [line], tail.lines);
      } else {
        assert e == Exchange([line], replies, got);
        response := Strip(got);
      }
    }

    /** One turn of _retry's loop: write the setting, then read it back. */
    method WriteAndReadBack(ch: char, q: Request) returns (got: string)
      modifies this`written, this`replies
      ensures var w := Sent(Setting(ch, q.command, q.value), old(replies), limits.resends);
        var r := Sent(Query(ch, q.command), w.rest, limits.resends);
        written == old(written) + (w.lines + r.lines) && replies == r.rest && got == Strip(r.reply)
    {
      ghost var w := Sent(Setting(ch, q.command, q.value), replies, limits.resends);
      var _ := Send(Setting(ch, q.command, q.value), limits.resends);
      assert replies == w.rest;
      got := Send(Query(ch, q.command), limits.resends);
      ghost var r := Sent(Query(ch, q.command), w.rest, limits.resends);
      Appended(old(written), w.lines, r.lines);
    }

    /**
     * One turn of _retry's loop: write, read back and compare. rem is the
     * rest of the run, k attempts from here; the turn is its first part,
     * and next the k - 1 attempts after it unless the turn matched.
     */
    method Turn(ch: char, q: Request, k: nat, ghost rem: Retried) returns (matched: bool, ghost turn: seq<Line>, ghost next: Retried)
      requires k > 0 && rem == Attempts(limits.resends, ch, q, replies, k)
      modifies this`written, this`replies
      ensures written == old(written) + turn
      ensures matched ==> rem == Retried(turn, replies, true)
      ensures !matched ==> next == Attempts(limits.resends, ch, q, replies, k - 1)
      ensures !matched ==> rem == Retried(turn + next.lines, next.rest, next.matched)
    {
      ghost var w := Sent(Setting(ch, q.command, q.value), replies, limits.resends);
      ghost var r := Sent(Query(ch, q.command), w.rest, limits.resends);
      AttemptOnce(limits.resends, ch, q, replies, k);
      var got := WriteAndReadBack(ch, q);
      turn := w.lines + r.lines;
      next := Attempts(limits.resends, ch, q, replies, k - 1);
      matched := Confirms(q, got);
    }

    /** _retry's loop: up to k turns of write and read-back, stopping at the first match. */
    method AttemptLoop(ch: char, q: Request, k: nat) returns (matched: bool)
      modifies this`written, this`replies
      ensures var a := Attempts(limits.resends, ch, q, old(replies), k);
        written == old(written) + a.lines && replies == a.rest && matched == a.matched
    {
      ghost var total := Attempts(limits.resends, ch, q, replies, k);
      ghost var done: seq<Line> := [];
      ghost var rem := total;
      Appended([], [], total.lines);
      matched := false;
      var left := k;
      while left > 0 && !matched
        invariant written == old(written) + done
        invariant matched ==> total == Retried(done, replies, true)
        invariant !matched ==> rem == Attempts(limits.resends, ch, q, replies, left)
        invariant !matched ==> total == Retried(done + rem.lines, rem.rest, rem.matched)
      {
        ghost var turn, next;
        matched, turn, next := Turn(ch, q, left, rem);
        Appended(old(written), done, turn);
        if !matched {
          Appended(done, turn, next.lines);
        }
        done := done + turn;
        rem := next;
        left := left - 1;
      }
      if !matched {
        assert rem == Retried([], replies, false);
        Appended(done, [], []);
      }
    }

    /** The body of _retry once the channel letter is known and the port is open. */
    method RetryOn(ch: char, q: Request) returns (matched: bool)
      modifies this`written, this`replies
      ensures var p := Polled(limits, ch, q, old(replies));
        written == old(written) + p.lines && replies == p.rest && matched == p.matched
    {
      ghost var r0 := replies;
      var got := Send(Query(ch, q.command), limits.resends);
      ghost var p := Sent(Query(ch, q.command), r0, limits.resends);
      if Confirms(q, got) {
        assert Polled(limits, ch, q, r0) == Retried(p.lines, p.rest, true);
        return true;
      }
      matched := AttemptLoop(ch, q, limits.attempts);
      ghost var a := Attempts(limits.resends, ch, q, p.rest, limits.attempts);
      assert Polled(limits, ch, q, r0) == Retried(p.lines + a.lines, a.rest, a.matched);
      Appended(old(written), p.lines, a.lines);
    }

    /** _retry(channel, command, value, match, match_fn). */
    method Retry(ch: Channel, q: Request) returns (err: Option<Fault>)
      modifies this`written, this`replies
      ensures var r := RetryRun(limits, connected, ch, q, old(replies));
        written == old(written) + r.lines && replies == r.rest && err == r.err
    {
      if ch == Some(0) {
        err := RetryBoth(q);
      } else {
        err := RetryChannel(ch, q);
      }
    }

    /** _retry on channel 0: channel 1 and then channel 2, with plain equality. */
    method RetryBoth(q: Request) returns (err: Option<Fault>)
      modifies this`written, this`replies
      ensures var r := RetryRun(limits, connected, Some(0), q, old(replies));
        written == old(written) + r.lines && replies == r.rest && err == r.err
    {
      var exact := q.(matcher := Exact);
      ghost var first := RetryRun(limits, connected, Some(1), exact, replies);
      err := RetryChannel(Some(1), exact);
      if err.Some? {
        return;
      }
      ghost var second := RetryRun(limits, connected, Some(2), exact, first.rest);
      err := RetryChannel(Some(2), exact);
      Appended(old(written), first.lines, second.lines);
    }

    /** _retry on any channel but 0: the letter M or F, or the channel refused. */
    method RetryChannel(ch: Channel, q: Request) returns (err: Option<Fault>)
      requires ch != Some(0)
      modifies this`written, this`replies
      ensures var r := RetryRun(limits, connected, ch, q, old(replies));
        written == old(written) + r.lines && replies == r.rest && err == r.err
    {
      var letter: char;
      if ch == Some(1) {
        letter := 'M';
      } else if ch == Some(2) {
        letter := 'F';
      } else {
        return Some(UnknownChannel);
      }
      if !connected {
        return Some(NoPort);
      }
      ghost var r0 := replies;
      var matched := RetryOn(letter, q);
      ghost var p := Polled(limits, letter, q, r0);
      assert RetryRun(limits, connected, ch, q, r0) == Run(p.lines, p.rest, if p.matched then None else Some(MissingSys));
      err := if matched then None else Some(MissingSys);
    }

    method EnableOutput(ch: Channel, on: bool) returns (err: Option<Fault>)
      modifies this`written, this`replies
      ensures var r := RetryRun(limits, connected, ch, EnableRequest(on), old(replies));
        written == old(written) + r.lines && replies == r.rest && err == r.err
    {
      err := Retry(ch, EnableRequest(on));
    }

    method SetFrequency(ch: Channel, freq: real) returns (err: Option<Fault>)
      modifies this`written, this`replies
      ensures var r := RetryRun(limits, connected, ch, FrequencyRequest(freq), old(replies));
        written == old(written) + r.lines && replies == r.rest && err == r.err
    {
      err := Retry(ch, FrequencyRequest(freq));
    }

    /** Always channel 2. */
    method SetPhase(phase: real) returns (err: Option<Fault>)
      modifies this`written, this`replies
      ensures var r := RetryRun(limits, connected, Some(2), PhaseRequest(phase), old(replies));
        written == old(written) + r.lines && replies == r.rest && err == r.err
    {
      err := Retry(Some(2), PhaseRequest(phase));
    }

    /** The wave type is ignored. */
    method SetWaveType(ch: Channel, w: WaveType) returns (err: Option<Fault>)
      modifies this`written, this`replies
      ensures var r := RetryRun(limits, connected, ch, WaveRequest, old(replies));
        written == old(written) + r.lines && replies == r.rest && err == r.err
    {
      err := Retry(ch, WaveRequest);
    }

    /** set_amplitue: a channel without a load entry is refused before anything is written. */
    method SetAmplitue(ch: Channel, amp: real) returns (err: Option<Fault>)
      modifies this`written, this`replies
      ensures var v := ApplyLoad(loadImpedance, ch, amp);
        v.Failure? ==> err == Some(v.error) && written == old(written) && replies == old(replies)
      ensures var v := ApplyLoad(loadImpedance, ch, amp);
        v.Success? ==> var r := RetryRun(limits, connected, ch, AmplitudeRequest(v.value), old(replies));
          written == old(written) + r.lines && replies == r.rest && err == r.err
    {
      var volts := ApplyLoad(loadImpedance, ch, amp);
      if volts.Failure? {
        return Some(volts.error);
      }
      err := Retry(ch, AmplitudeRequest(volts.value));
    }

    /** set_offset: as set_amplitue, with the offset's own rendering. */
    method SetOffset(ch: Channel, offset: real) returns (err: Option<Fault>)
      modifies this`written, this`replies
      ensures var v := ApplyLoad(loadImpedance, ch, offset);
        v.Failure? ==> err == Some(v.error) && written == old(written) && replies == old(replies)
      ensures var v := ApplyLoad(loadImpedance, ch, offset);
        v.Success? ==> var r := RetryRun(limits, connected, ch, OffsetRequest(v.value), old(replies));
          written == old(written) + r.lines && replies == r.rest && err == r.err
    {
      var adjusted := ApplyLoad(loadImpedance, ch, offset);
      if adjusted.Failure? {
        return Some(adjusted.error);
      }
      err := Retry(ch, OffsetRequest(adjusted.value));
    }

    /** Any channel key is accepted, new ones included; nothing is written. */
    method SetLoadImpedance(ch: Channel, z: Impedance)
      modifies this`loadImpedance
      ensures loadImpedance == old(loadImpedance)[ch := StoredLoad(z)]
    {
      var stored: Option<real> := Some(0.0);
      match z {
        case HiZ => stored := None;
        case Ohms(r) => stored := if r > MaxZ then None else Some(r);
      }
      loadImpedance := loadImpedance[ch := stored];
    }

    /** Connects and switches both channels off. */
    method Initialize() returns (err: Option<Fault>)
      modifies this`connected, this`written, this`replies
      ensures connected
      ensures var r := RetryRun(limits, true, Some(0), EnableRequest(false), old(replies));
        written == old(written) + r.lines && replies == r.rest && err == r.err
    {
      Connect();
      err := EnableOutput(Some(0), false);
    }
  }

  /**
   * One exchange writes the same line one or more times, at most once per
   * resend plus one, and reads exactly one reply per line; an empty answer
   * comes back only once every resend is spent, and a first reply with
   * something in it ends the exchange at once.
   */
  lemma {:induction false} SentShape(line: Line, replies: seq<string>, retries: nat)
    ensures var e := Sent(line, replies, retries);
      && 1 <= |e.lines| <= retries + 1
      && (forall i :: 0 <= i < |e.lines| ==> e.lines[i] == line)
      && (|e.lines| <= |replies| ==> e.rest == replies[|e.lines|..])
      && (|e.lines| > |replies| ==> e.rest == [])
      && (e.reply == "" ==> |e.lines| == retries + 1)
      && (Next(replies) != "" ==> e == Exchange([line], replies[1..], replies[0]))
    decreases retries
  {
    if Next(replies) == [] && retries > 0 {
      SentShape(line, Rest(replies), retries - 1);
      var e := Sent(line, Rest(replies), retries - 1);
      if |e.lines| + 1 <= |replies| {
        assert Rest(replies)[|e.lines|..] == replies[|e.lines| + 1..];
      }
    }
  }

  /** A generator that has nothing (more) to say. */
  predicate Silent(replies: seq<string>)
  {
    forall i :: 0 <= i < |replies| ==> replies[i] == ""
  }

  lemma {:induction false} SilentSent(line: Line, replies: seq<string>, retries: nat)
    requires Silent(replies)
    ensures var e := Sent(line, replies, retries);
      |e.lines| == retries + 1 && e.reply == "" && Silent(e.rest)
    decreases retries
  {
    if retries > 0 {
      SilentSent(line, Rest(replies), retries - 1);
    }
  }

  lemma MultipleStep(k: nat, c: nat)
    requires k > 0
    ensures k * c == c + (k - 1) * c
  {
  }

  lemma {:induction false} SilentAttempts(n: nat, ch: char, q: Request, replies: seq<string>, k: nat)
    requires Silent(replies) && !Confirms(q, "")
    ensures var a := Attempts(n, ch, q, replies, k);
      |a.lines| == k * (2 * (n + 1)) && !a.matched && Silent(a.rest)
    decreases k
  {
    if k > 0 {
      var w := Sent(Setting(ch, q.command, q.value), replies, n);
      SilentSent(Setting(ch, q.command, q.value), replies, n);
      var r := Sent(Query(ch, q.command), w.rest, n);
      SilentSent(Query(ch, q.command), w.rest, n);
      assert Strip(r.reply) == "";
      SilentAttempts(n, ch, q, r.rest, k - 1);
      var a := Attempts(n, ch, q, r.rest, k - 1);
      assert Attempts(n, ch, q, replies, k) == Retried(w.lines + r.lines + a.lines, a.rest, a.matched);
      MultipleStep(k, 2 * (n + 1));
      assert |w.lines + r.lines + a.lines| == k * (2 * (n + 1));
    } else {
      assert Attempts(n, ch, q, replies, k) == Retried([], replies, false);
    }
  }

  /**
   * A generator that never answers: every line is resent to the limit,
   * every write attempt is made, and the call ends in the exception: one
   * read-back, then a write and a read-back per attempt, each sent
   * resends + 1 times (30 lines with the driver's own limits).
   */
  lemma SilentGenerator(lim: Limits, ch: Channel, q: Request, replies: seq<string>)
    requires ch == Some(1) || ch == Some(2)
    requires Silent(replies) && !Confirms(q, "")
    ensures var r := RetryRun(lim, true, ch, q, replies);
      |r.lines| == (lim.resends + 1) + lim.attempts * (2 * (lim.resends + 1)) && r.err == Some(MissingSys)
  {
    var letter := if ch == Some(1) then 'M' else 'F';
    var p := Sent(Query(letter, q.command), replies, lim.resends);
    SilentSent(Query(letter, q.command), replies, lim.resends);
    assert Strip(p.reply) == "";
    SilentAttempts(lim.resends, letter, q, p.rest, lim.attempts);
  }

  /** No setter's expected read-back is the empty reply of a timeout. */
  lemma SilenceNeverConfirms(on: bool, freq: real, phase: real, volts: real, offset: real)
    ensures !Confirms(EnableRequest(on), "") && !Confirms(FrequencyRequest(freq), "")
    ensures !Confirms(PhaseRequest(phase), "") && !Confirms(WaveRequest, "")
    ensures !Confirms(AmplitudeRequest(volts), "") && !Confirms(OffsetRequest(offset), "")
  {
  }

  /** A first read-back that already matches ends _retry with nothing but read-backs written. */
  lemma AlreadySet(lim: Limits, ch: char, q: Request, replies: seq<string>)
    requires Confirms(q, Strip(Sent(Query(ch, q.command), replies, lim.resends).reply))
    ensures var p := Polled(lim, ch, q, replies);
      p.matched && 1 <= |p.lines| <= lim.resends + 1 && forall i :: 0 <= i < |p.lines| ==> p.lines[i] == Query(ch, q.command)
  {
    SentShape(Query(ch, q.command), replies, lim.resends);
  }

  /** match_hz_only accepts exactly the replies made of the expected text, a '.', and anything after it. */
  lemma HzOnlyMeaning(m: string, got: string)
    ensures MatchHzOnly(m, got) <==> '.' !in m && |m| < |got| && got[..|m|] == m && got[|m|] == '.'
  {
    if '.' !in m && |m| < |got| && got[..|m|] == m && got[|m|] == '.' {
      var k := IndexOf(got, '.');
      assert k == |m| by {
        assert got[..k + 1][k] == '.';
        assert k <= |m|;
      }
    }
  }

  /** "%0Nu" text is digits after an optional sign: it holds no '.'. */
  lemma PaddedIntHasNoDot(n: int, width: nat)
    ensures '.' !in PaddedInt(n, width)
  {
    var w: nat := if n < 0 && width > 0 then width - 1 else width;
    var ds := ZeroPad(Decimal(if n < 0 then -n else n), w);
    ZeroPadValue(Decimal(if n < 0 then -n else n), w);
    DigitsHaveNoDot(ds);
    if n < 0 {
      var s := PaddedInt(n, width);
      assert s == "-" + ds;
      forall k | 0 <= k < |s|
        ensures s[k] != '.'
      {
        if k > 0 {
          assert s[k] == ds[k - 1];
        }
      }
    }
  }

  lemma DigitsHaveNoDot(ds: string)
    requires DigitsOnly(ds)
    ensures '.' !in ds
  {
  }

  /** The frequency is confirmed on its whole hertz, whatever fractional part the generator reports. */
  lemma FrequencyAnyFraction(freq: real, frac: string)
    ensures Confirms(FrequencyRequest(freq), FrequencyRequest(freq).readBack + "." + frac)
  {
    var m := FrequencyRequest(freq).readBack;
    PaddedIntHasNoDot(Trunc(freq), 8);
    HzOnlyMeaning(m, m + "." + frac);
    assert (m + "." + frac)[..|m|] == m;
  }

  /** round(x, n) scaled back up is round(x * 10^n) as an integer. */
  lemma ScaledRound(x: real, scale: real)
    requires scale > 0.0
    ensures Trunc(RoundTo(x, scale) * scale) == RoundHalfAway(x * scale)
  {
    var n := RoundHalfAway(x * scale);
    assert RoundTo(x, scale) * scale == n as real;
  }

  /**
   * Each setter's expected read-back parses back to the number the
   * generator reports: whole hertz, millidegrees, tenths of a millivolt
   * rounded half away from zero, and the offset word.
   */
  lemma FrequencyReadBack(freq: real)
    ensures ParseInt(FrequencyRequest(freq).readBack) == Some(Trunc(freq))
  {
    PaddedIntRoundTrip(Trunc(freq), 8);
  }

  lemma PhaseReadBack(phase: real)
    ensures ParseInt(PhaseRequest(phase).readBack) == Some(Trunc(phase * 1000.0))
  {
    IntTextRoundTrip(Trunc(phase * 1000.0));
  }

  lemma AmplitudeReadBack(volts: real)
    ensures ParseInt(AmplitudeRequest(volts).readBack) == Some(RoundHalfAway(volts * 10000.0))
  {
    ScaledRound(volts, 10000.0);
    IntTextRoundTrip(RoundHalfAway(volts * 10000.0));
  }

  lemma OffsetReadBack(offset: real)
    ensures ParseInt(OffsetRequest(offset).readBack) == Some(OffsetWord(offset))
  {
    IntTextRoundTrip(OffsetWord(offset));
  }

  /** The micro-hertz written and the whole hertz expected back describe the same frequency. */
  lemma FrequencyUnits(freq: real)
    requires freq >= 0.0
    ensures var q := FrequencyRequest(freq);
      q.value.Str? && ParseInt(q.value.s) == Some(Trunc(freq * 1000000.0))
      && Trunc(freq * 1000000.0) / 1000000 == Trunc(freq)
  {
    PaddedIntRoundTrip(Trunc(freq * 1000000.0), 14);
    var t := Trunc(freq);
    var u := Trunc(freq * 1000000.0);
    var x := freq * 1000000.0;
    assert (t * 1000000) as real <= x < ((t + 1) * 1000000) as real;
    assert u as real <= x < u as real + 1.0;
    assert (t * 1000000) as real < u as real + 1.0;
    assert u as real < ((t + 1) * 1000000) as real;
  }

  /**
   * The offset word is the rounded millivolt count in 32-bit two's
   * complement: the same value for a non-negative offset, and congruent
   * modulo 2^32 and in range for a negative one.
   */
  lemma OffsetWordTwosComplement(offset: real)
    ensures var k := RoundHalfAway(offset * 1000.0);
      -0x1_0000_0000 <= k < 0x1_0000_0000 ==>
        0 <= OffsetWord(offset) < 0x1_0000_0000 && (OffsetWord(offset) - k) % 0x1_0000_0000 == 0
    ensures var k := RoundHalfAway(offset * 1000.0);
      k >= 0 ==> OffsetWord(offset) == k
  {
    ScaledRound(offset, 1000.0);
  }

  /**
   * The stored load and the divider agree: with a finite non-zero load the
   * voltage written is the one asked for divided by the divider's
   * coefficient, so the load sees what was asked; Hi-Z, a load above
   * 10 Mohm and a zero load leave it unchanged.
   */
  lemma ApplyLoadOnDivider(loads: map<Channel, Option<real>>, ch: Channel, z: Impedance, v: real)
    requires ch in loads && loads[ch] == StoredLoad(z)
    ensures ApplyLoad(loads, ch, v).Success?
    ensures z.HiZ? || z.r > MaxZ || z.r == 0.0 ==> ApplyLoad(loads, ch, v).value == v
    ensures z.Ohms? && 0.0 < z.r <= MaxZ ==>
      ApplyLoad(loads, ch, v).value == v / DividerCoefficient(z).value
      && ApplyLoad(loads, ch, v).value * DividerCoefficient(z).value == v
  {
    if z.Ohms? && 0.0 < z.r <= MaxZ {
      DividerNetScale(z, v);
      var a := ApplyLoad(loads, ch, v).value;
      assert a == v * (z.r + RIn) / z.r;
      var c := DividerCoefficient(z).value;
      assert a * c == v;
    }
  }

  /** A channel without an entry is refused; a channel just given a load always has one. */
  lemma ApplyLoadChannels(loads: map<Channel, Option<real>>, ch: Channel, z: Impedance, v: real)
    ensures ApplyLoad(loads, ch, v).Failure? <==> ch !in loads
    ensures ApplyLoad(loads, ch, v).Failure? ==> ApplyLoad(loads, ch, v).error == UnknownChannel
    ensures ApplyLoad(loads[ch := StoredLoad(z)], ch, v).Success?
  {
  }

  /** Channel 0 drops the caller's comparison: both channels are compared with plain equality. */
  lemma ChannelZeroDropsMatcher(lim: Limits, connected: bool, q: Request, replies: seq<string>)
    ensures RetryRun(lim, connected, Some(0), q, replies) == RetryRun(lim, connected, Some(0), q.(matcher := HzOnly).(matcher := Exact), replies)
    ensures var first := RetryRun(lim, connected, Some(1), q.(matcher := Exact), replies);
      first.err.Some? ==> RetryRun(lim, connected, Some(0), q, replies) == first
  {
  }

  /**
   * The ways _retry ends: an unknown channel or a closed port before
   * anything is written, otherwise a match or the exception once every
   * attempt is spent.
   */
  lemma RetryOutcome(lim: Limits, connected: bool, ch: Channel, q: Request, replies: seq<string>)
    ensures ch != Some(0) && ch != Some(1) && ch != Some(2) ==>
      RetryRun(lim, connected, ch, q, replies) == Run([], replies, Some(UnknownChannel))
    ensures (ch == Some(0) || ch == Some(1) || ch == Some(2)) && !connected ==>
      RetryRun(lim, connected, ch, q, replies) == Run([], replies, Some(NoPort))
    ensures var r := RetryRun(lim, connected, ch, q, replies);
      r.err == None || r.err == Some(UnknownChannel) || r.err == Some(NoPort) || r.err == Some(MissingSys)
  {
  }
}
