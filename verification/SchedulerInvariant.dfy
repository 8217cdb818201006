/** What every step of the scheduler keeps. */
module SchedulerInvariant {
  import opened Common
  import opened WorkerTree
  import opened Scheduler

  /** Every worker owns `maxSteal` task channels. A channel travels inside a steal request,
      so the pair of owner and channel names the request that carries it. */
  type Token = (nat, nat)

  /** Where a channel is: on its owner's stack of free channels, in a request, or filled
      with tasks. `Nowhere` is used between the two halves of a move. */
  datatype Place =
    | Free
    | Mail(v: nat, r: Request)
    | Hand(v: nat, r: Request)
    | Held(v: nat, r: Request)
    | Box
    | Nowhere

  function TokenOf(r: Request): Token
  {
    (r.id, r.chan)
  }

  predicate NoDup<T(==)>(q: seq<T>)
  {
    forall i, j :: 0 <= i < j < |q| ==> q[i] != q[j]
  }

  function Ids(q: seq<Request>): set<nat>
  {
    set r | r in q :: r.id
  }

  // The channels of one worker agree with the map of places

  ghost predicate FreeAgrees(x: Worker, v: nat, maxSteal: nat, g: map<Token, Place>)
  {
    && NoDup(x.free)
    && (forall k: nat :: k in x.free <==> k < maxSteal && (v, k) in g && g[(v, k)] == Free)
  }

  ghost predicate BoxesAgree(x: Worker, v: nat, maxSteal: nat, g: map<Token, Place>)
  {
    && |x.boxes| == maxSteal
    && (forall k: nat | k < maxSteal :: x.boxes[k] != [] <==> (v, k) in g && g[(v, k)] == Box)
  }

  ghost predicate MailAgrees(x: Worker, v: nat, g: map<Token, Place>)
  {
    && NoDup(x.mail)
    && (forall r :: r in x.mail <==> TokenOf(r) in g && g[TokenOf(r)] == Mail(v, r))
  }

  ghost predicate HandAgrees(x: Worker, v: nat, g: map<Token, Place>)
  {
    forall r :: x.hand == Some(r) <==> TokenOf(r) in g && g[TokenOf(r)] == Hand(v, r)
  }

  ghost predicate HeldAgrees(x: Worker, v: nat, g: map<Token, Place>)
  {
    && NoDup(x.held)
    && (forall r :: r in x.held <==> TokenOf(r) in g && g[TokenOf(r)] == Held(v, r))
  }

  ghost predicate Agrees(x: Worker, v: nat, maxSteal: nat, g: map<Token, Place>)
  {
    && FreeAgrees(x, v, maxSteal, g)
    && BoxesAgree(x, v, maxSteal, g)
    && MailAgrees(x, v, g)
    && HandAgrees(x, v, g)
    && HeldAgrees(x, v, g)
  }

  ghost predicate AgreesAt(s: State, g: map<Token, Place>, v: nat)
  {
    v < |s.ws| ==> Agrees(s.ws[v], v, s.maxSteal, g)
  }

  /** Every channel is in exactly one place. */
  ghost predicate Linked(s: State, g: map<Token, Place>)
  {
    && (forall t: Token :: t in g <==> t.0 < |s.ws| && t.1 < s.maxSteal)
    && (forall v: nat {:trigger AgreesAt(s, g, v)} :: AgreesAt(s, g, v))
  }

  // Requests on their way

  /** What holds of the victims of a request that is not at its thief. */
  predicate Travelling(n: nat, r: Request)
  {
    && r.id < n
    && r.id !in r.victims
    && r.victims <= AllWorkers(n)
    && r.try + |r.victims| <= n - 1
  }

  predicate MailedOk(n: nat, r: Request, v: nat)
  {
    r.id < n && r.try <= n - 1 && (r.id != v ==> Travelling(n, r) && v in r.victims)
  }

  predicate InHandOk(n: nat, x: Worker, v: nat, r: Request)
  {
    r.id < n && r.try <= n - 1
    && (r.id != v ==> Travelling(n, r) && r.victims * ({v} + Flagged(n, x, v)) != {})
  }

  ghost predicate FailedOk(s: State, r: Request, v: nat)
  {
    && 0 < r.id < |s.ws| && v == Parent(r.id)
    && s.ws[r.id].waiting && s.ws[r.id].phase != Awake
  }

  /** The worker has found task channel `k` empty and will not look again before it sleeps. */
  predicate LookedPast(phase: Phase, k: nat)
  {
    phase == Blocked || (phase.Peeking? && k < phase.next)
  }

  ghost predicate PlaceOk(s: State, t: Token, p: Place)
    requires t.0 < |s.ws|
  {
    match p
    case Free => true
    case Mail(v, r) =>
      TokenOf(r) == t && r.id < |s.ws| && v < |s.ws|
      && if r.state == StateFailed then FailedOk(s, r, v) else !s.ws[r.id].waiting && MailedOk(|s.ws|, r, v)
    case Hand(v, r) =>
      TokenOf(r) == t && r.id < |s.ws| && v < |s.ws|
      && r.state != StateFailed && !s.ws[r.id].waiting && InHandOk(|s.ws|, s.ws[v], v, r)
    case Held(v, r) =>
      TokenOf(r) == t && r.state == StateFailed && FailedOk(s, r, v)
    case Box =>
      |s.ws| > 1 && (LookedPast(s.ws[t.0].phase, t.1) ==> t.0 > 0 && s.ws[Parent(t.0)].owes == Some(t.0))
    case Nowhere => false
  }

  // Workers

  predicate MarkedIdle(p: Place)
  {
    (p.Mail? || p.Hand? || p.Held?) && p.r.state != StateWorking
  }

  /** The channels of `w` that are out in a request that is not marked as working. */
  ghost function IdleChannels(g: map<Token, Place>, w: nat, maxSteal: nat): set<nat>
  {
    set k: nat | k < maxSteal && (w, k) in g && MarkedIdle(g[(w, k)])
  }

  predicate CountersOk(x: Worker, maxSteal: nat)
  {
    && x.requested - x.dropped + |x.free| == maxSteal
    && 0 <= x.dropped < maxSteal
    && x.requested <= maxSteal
  }

  predicate WaitingOk(x: Worker, w: nat, maxSteal: nat)
  {
    && (x.waiting ==> w > 0 && x.mode == Idle && x.hand == None && x.owes == None && x.left && x.right
                      && x.requested == maxSteal && x.dropped == maxSteal - 1)
    && (x.phase != Awake ==> x.waiting)
  }

  predicate FlagsOk(n: nat, x: Worker, w: nat)
  {
    && (x.left <==> 2 * w + 1 >= n || 2 * w + 1 in Ids(x.held))
    && (x.right <==> 2 * w + 2 >= n || 2 * w + 2 in Ids(x.held))
    && |x.held| == |Ids(x.held)|
  }

  ghost predicate WorkerOk(n: nat, x: Worker, w: nat, maxSteal: nat, g: map<Token, Place>)
  {
    && CountersOk(x, maxSteal)
    && WaitingOk(x, w, maxSteal)
    && FlagsOk(n, x, w)
    && (x.mode == Idle ==> x.deque == [] && x.stack == [])
    && (x.mode == Working ==> |IdleChannels(g, w, maxSteal)| + x.dropped < maxSteal)
    && (x.owes.Some? ==> 0 < x.owes.value < n && Parent(x.owes.value) == w)
  }

  predicate QuietOk(s: State)
  {
    s.quiescent ==>
      && |s.ws| > 0
      && s.ws[0].left && s.ws[0].right && s.ws[0].mode == Working
      && s.ws[0].deque == [] && s.ws[0].stack == []
      && forall k :: 0 <= k < |s.ws[0].boxes| ==> s.ws[0].boxes[k] == []
  }

  ghost predicate PlaceOkAt(s: State, g: map<Token, Place>, t: Token)
  {
    t in g && t.0 < |s.ws| ==> PlaceOk(s, t, g[t])
  }

  ghost predicate WorkerOkAt(s: State, g: map<Token, Place>, w: nat)
  {
    w < |s.ws| ==> WorkerOk(|s.ws|, s.ws[w], w, s.maxSteal, g)
  }

  ghost predicate Inv(s: State, g: map<Token, Place>)
  {
    && |s.ws| >= 1 && s.maxSteal >= 1
    && Linked(s, g)
    && (forall t: Token {:trigger PlaceOkAt(s, g, t)} :: PlaceOkAt(s, g, t))
    && (forall w: nat {:trigger WorkerOkAt(s, g, w)} :: WorkerOkAt(s, g, w))
    && QuietOk(s)
  }

  ghost predicate Safe(s: State)
  {
    exists g :: Inv(s, g)
  }
}
