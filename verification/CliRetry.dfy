/** The command line client: bounded resends of one request, and the wait for an app it launched. */
module CliRetry {
  import opened Text

  /** Milliseconds. */
  const COLD_START_DEADLINE: nat := 30_000
  const COLD_START_POLL: nat := 300
  const AMBIGUOUS_REQUEST_RETRIES: nat := 3

  /** What one POST came to. `Ambiguous`: it may or may not have been stored. */
  datatype Attempt = Accepted(receipt: nat) | NotRunning | Ambiguous | Rejected(code: int)

  datatype Arguments = Arguments(reference: string, pr: nat, extraArgs: string, requestId: Option<string>)

  datatype Post = Post(args: Arguments, requestId: string)

  // ---------------------------------------------------------------- the shape of a run

  /** Result and number of the next POST, when POST number `n` is answered `answers(n)`. */
  datatype Outcome = Outcome(result: Attempt, next: nat)

  function Submitted(answers: nat -> Attempt, n: nat, attempt: nat): Outcome
    requires attempt <= AMBIGUOUS_REQUEST_RETRIES
    decreases AMBIGUOUS_REQUEST_RETRIES - attempt
  {
    if !answers(n).Ambiguous? then Outcome(answers(n), n + 1)
    else if attempt < AMBIGUOUS_REQUEST_RETRIES then Submitted(answers, n + 1, attempt + 1)
    else Outcome(Rejected(1), n + 1)
  }

  function Awaited(answers: nat -> Attempt, n: nat, waited: nat): Outcome
    decreases COLD_START_DEADLINE + COLD_START_POLL - waited
  {
    var first := Submitted(answers, n, 0);
    if !first.result.NotRunning? || waited >= COLD_START_DEADLINE then first
    else Awaited(answers, first.next, waited + COLD_START_POLL)
  }

  /** An answer after which the client goes on. */
  predicate Unsettled(a: Attempt) {
    a.Ambiguous? || a.NotRunning?
  }

  // ---------------------------------------------------------------- the client

  class Client {
    const answers: nat -> Attempt
    const launches: bool
    var sent: seq<Post>
    var spawned: nat

    constructor (answers: nat -> Attempt, launches: bool)
      ensures this.answers == answers && this.launches == launches && sent == [] && spawned == 0
    {
      this.answers, this.launches, sent, spawned := answers, launches, [], 0;
    }

    /** `post_review_request_once` */
    method PostOnce(post: Post) returns (r: Attempt)
      modifies `sent
      ensures sent == old(sent) + [post] && r == answers(|old(sent)|)
    {
      r := answers(|sent|);
      sent := sent + [post];
    }

    /** `submit_review_request` */
    method Submit(post: Post) returns (r: Attempt)
      modifies `sent
      ensures Outcome(r, |sent|) == Submitted(answers, |old(sent)|, 0)
      ensures old(sent) <= sent && forall i :: |old(sent)| <= i < |sent| ==> sent[i] == post
    {
      var attempt := 0;
      while attempt <= AMBIGUOUS_REQUEST_RETRIES
        invariant attempt <= AMBIGUOUS_REQUEST_RETRIES
        invariant Submitted(answers, |sent|, attempt) == Submitted(answers, |old(sent)|, 0)
        invariant old(sent) <= sent && forall i :: |old(sent)| <= i < |sent| ==> sent[i] == post
        decreases AMBIGUOUS_REQUEST_RETRIES - attempt
      {
        r := PostOnce(post);
        if !r.Ambiguous? { return; }
        if attempt == AMBIGUOUS_REQUEST_RETRIES { return Rejected(1); }
        attempt := attempt + 1;
      }
    }

    /** `await_app_then_request` */
    method AwaitApp(post: Post) returns (r: Attempt)
      modifies `sent
      ensures Outcome(r, |sent|) == Awaited(answers, |old(sent)|, 0)
      ensures old(sent) <= sent && forall i :: |old(sent)| <= i < |sent| ==> sent[i] == post
    {
      var waited := 0;
      while true
        invariant Awaited(answers, |sent|, waited) == Awaited(answers, |old(sent)|, 0)
        invariant old(sent) <= sent && forall i :: |old(sent)| <= i < |sent| ==> sent[i] == post
        decreases COLD_START_DEADLINE + COLD_START_POLL - waited
      {
        r := Submit(post);
        if !r.NotRunning? { return; }
        if waited >= COLD_START_DEADLINE { return; }
        waited := waited + COLD_START_POLL;
      }
    }

    /** `run_client` up to the receipt: every exit before it has code 1 or the server's code. Whatever
        happens on the way, all posts are the same post, under one id. */
    method Run(args: Arguments, newId: string) returns (r: Result<nat, int>)
      requires sent == [] && spawned == 0
      modifies this
      ensures var id := if args.requestId.Some? then args.requestId.value else newId;
              forall i :: 0 <= i < |sent| ==> sent[i] == Post(args, id)
      ensures spawned == (if Submitted(answers, 0, 0).result.NotRunning? && launches then 1 else 0)
      ensures var first := Submitted(answers, 0, 0);
              var last := if first.result.NotRunning? && launches then Awaited(answers, first.next, 0) else first;
              && |sent| == last.next
              && r == match last.result {
                        case Accepted(id) => Ok(id)
                        case Rejected(code) => Err(code)
                        case _ => Err(1)
                      }
    {
      var post := Post(args, if args.requestId.Some? then args.requestId.value else newId);
      var attempt := Submit(post);
      SubmittedShape(answers, 0, 0);
      if attempt.NotRunning? {
        if !launches { return Err(1); }
        spawned := spawned + 1;
        attempt := AwaitApp(post);
        AwaitedShape(answers, Submitted(answers, 0, 0).next, 0);
      }
      match attempt
      case Accepted(id) => return Ok(id);
      case Rejected(code) => return Err(code);
      case NotRunning => return Err(1);
    }
  }

  // ---------------------------------------------------------------- what a run can look like

  /** One submit is 1 to 4 posts; every post but its last was ambiguous; a submit that ends in a
      definite answer ends with it, and exhausting the resends is reported as code 1. */
  lemma {:induction false} SubmittedShape(answers: nat -> Attempt, n: nat, attempt: nat)
    requires attempt <= AMBIGUOUS_REQUEST_RETRIES
    ensures var s := Submitted(answers, n, attempt);
      && n < s.next <= n + 1 + AMBIGUOUS_REQUEST_RETRIES - attempt
      && (forall i :: n <= i < s.next - 1 ==> answers(i).Ambiguous?)
      && !s.result.Ambiguous?
      && (!answers(s.next - 1).Ambiguous? ==> s.result == answers(s.next - 1))
      && (answers(s.next - 1).Ambiguous? ==>
            s.result == Rejected(1) && s.next == n + 1 + AMBIGUOUS_REQUEST_RETRIES - attempt)
    decreases AMBIGUOUS_REQUEST_RETRIES - attempt
  {
    if answers(n).Ambiguous? && attempt < AMBIGUOUS_REQUEST_RETRIES {
      SubmittedShape(answers, n + 1, attempt + 1);
    }
  }

  /** Tries left when `waited` milliseconds are gone. */
  function TriesLeft(waited: nat): nat {
    if waited >= COLD_START_DEADLINE then 1
    else 1 + (COLD_START_DEADLINE - waited + COLD_START_POLL - 1) / COLD_START_POLL
  }

  /** The wait makes at most `TriesLeft` submits; no post but the last was settled, and the client
      reports an acceptance exactly when the last post was accepted, with that receipt. */
  lemma {:induction false} AwaitedShape(answers: nat -> Attempt, n: nat, waited: nat)
    ensures var s := Awaited(answers, n, waited);
      && n < s.next <= n + TriesLeft(waited) * (1 + AMBIGUOUS_REQUEST_RETRIES)
      && (forall i :: n <= i < s.next - 1 ==> Unsettled(answers(i)))
      && !s.result.Ambiguous?
      && (s.result == answers(s.next - 1) || (answers(s.next - 1).Ambiguous? && s.result == Rejected(1)))
      && (s.result.NotRunning? ==> s.next >= n + TriesLeft(waited))
    decreases COLD_START_DEADLINE + COLD_START_POLL - waited
  {
    var first := Submitted(answers, n, 0);
    SubmittedShape(answers, n, 0);
    if first.result.NotRunning? && waited < COLD_START_DEADLINE {
      AwaitedShape(answers, first.next, waited + COLD_START_POLL);
      assert TriesLeft(waited) == 1 + TriesLeft(waited + COLD_START_POLL);
    }
  }

  /** A whole run sends at most 4 posts, or 4 + 101 * 4 when it launched the app; it stops at the first
      settled answer; giving up on the app takes at least 101 refused connections. */
  lemma RunShape(answers: nat -> Attempt, launches: bool)
    ensures TriesLeft(0) == 101
    ensures var first := Submitted(answers, 0, 0);
            var last := if first.result.NotRunning? && launches then Awaited(answers, first.next, 0) else first;
            && 1 <= last.next <= (if first.result.NotRunning? && launches then 408 else 4)
            && (forall i :: 0 <= i < last.next - 1 ==> Unsettled(answers(i)))
            && (last.result.Accepted? <==> answers(last.next - 1).Accepted?)
            && (last.result.Accepted? ==> last.result == answers(last.next - 1))
            && (launches && last.result.NotRunning? ==> last.next >= 102)
  {
    SubmittedShape(answers, 0, 0);
    var first := Submitted(answers, 0, 0);
    AwaitedShape(answers, first.next, 0);
  }

  /** While the app is up and stores every request, an acceptance is lost only when four answers in a
      row are lost: any definite answer among the four posts of a submit is the one reported. */
  lemma AcceptanceGetsThrough(answers: nat -> Attempt, n: nat, k: nat)
    requires k <= AMBIGUOUS_REQUEST_RETRIES && answers(n + k).Accepted?
    requires forall i :: n <= i < n + k ==> answers(i).Ambiguous?
    ensures Submitted(answers, n, 0) == Outcome(answers(n + k), n + k + 1)
  {
    SubmittedShape(answers, n, 0);
  }

  // ---------------------------------------------------------------- messages

  datatype MessageAttempt<T> = Delivered(value: T) | Down | Failed(code: int)

  /** Number of attempts and of launches, and the result. */
  datatype MessageRun<T> = MessageRun(attempts: nat, launches: nat, result: Result<T, int>)

  /** `with_message_cold_start`: the loop of the source, with `waited` deciding when to launch. */
  method MessageColdStart<T>(answers: nat -> MessageAttempt<T>, canLaunch: bool) returns (r: MessageRun<T>)
    ensures 1 <= r.attempts <= 101 && r.launches <= 1
    ensures forall i :: 0 <= i < r.attempts - 1 ==> answers(i).Down?
    ensures match answers(r.attempts - 1)
            case Delivered(v) => r.result == Ok(v)
            case Failed(code) => r.result == Err(code)
            case Down => r.result == Err(1) && r.attempts == (if canLaunch then 101 else 1)
    ensures r.launches == (if answers(0).Down? && canLaunch then 1 else 0)
  {
    var waited, attempts, launches := 0, 0, 0;
    while true
      invariant waited == attempts * COLD_START_POLL && attempts <= 100
      invariant forall i :: 0 <= i < attempts ==> answers(i).Down?
      invariant attempts > 0 ==> canLaunch
      invariant launches == (if attempts > 0 then 1 else 0)
      decreases 101 - attempts
    {
      var answer := answers(attempts);
      attempts := attempts + 1;
      match answer {
        case Delivered(v) => return MessageRun(attempts, launches, Ok(v));
        case Failed(code) => return MessageRun(attempts, launches, Err(code));
        case Down =>
          if waited == 0 {
            if !canLaunch { return MessageRun(attempts, launches, Err(1)); }
            launches := launches + 1;
          } else if waited >= COLD_START_DEADLINE {
            return MessageRun(attempts, launches, Err(1));
          }
      }
      waited := waited + COLD_START_POLL;
    }
  }
}
