/** Moving one channel from one place to another keeps the channels of all workers in
    agreement with the map of places. Each move is two halves, through `Nowhere`. */
module SchedulerLinks {
  import opened Common
  import opened Scheduler
  import opened SchedulerInvariant

  predicate IsAt(p: Place, t: Token, v: nat)
  {
    match p
    case Free => t.0 == v
    case Box => t.0 == v
    case Mail(u, _) => u == v
    case Hand(u, _) => u == v
    case Held(u, _) => u == v
    case Nowhere => false
  }

  /** The part of a worker that `Agrees` talks about. */
  predicate SameChannels(x: Worker, y: Worker)
  {
    x.free == y.free && x.boxes == y.boxes && x.mail == y.mail && x.hand == y.hand && x.held == y.held
  }

  lemma FrameAgrees(x: Worker, v: nat, maxSteal: nat, g: map<Token, Place>, t: Token, p: Place)
    requires Agrees(x, v, maxSteal, g) && t in g
    requires !IsAt(g[t], t, v) && !IsAt(p, t, v)
    ensures Agrees(x, v, maxSteal, g[t := p])
  {
  }

  /** Only worker `v` and the place of `t` change. */
  lemma LinkedOne(s: State, s1: State, g: map<Token, Place>, v: nat, t: Token, p: Place)
    requires Linked(s, g) && t in g && v < |s.ws|
    requires |s1.ws| == |s.ws| && s1.maxSteal == s.maxSteal
    requires forall u: nat | u < |s.ws| && u != v :: s1.ws[u] == s.ws[u]
    requires g[t].Nowhere? || IsAt(g[t], t, v)
    requires p.Nowhere? || IsAt(p, t, v)
    requires Agrees(s1.ws[v], v, s.maxSteal, g[t := p])
    ensures Linked(s1, g[t := p])
  {
    var g1 := g[t := p];
    forall u: nat ensures AgreesAt(s1, g1, u) {
      assert AgreesAt(s, g, u);
      if u < |s.ws| && u != v {
        FrameAgrees(s.ws[u], u, s.maxSteal, g, t, p);
      }
    }
  }

  lemma LinkedSame(s: State, s1: State, g: map<Token, Place>)
    requires Linked(s, g)
    requires |s1.ws| == |s.ws| && s1.maxSteal == s.maxSteal
    requires forall u: nat | u < |s.ws| :: SameChannels(s.ws[u], s1.ws[u])
    ensures Linked(s1, g)
  {
    forall u: nat ensures AgreesAt(s1, g, u) {
      assert AgreesAt(s, g, u);
    }
  }

  // Taking a channel out of a place

  lemma TakeFree(x: Worker, y: Worker, v: nat, maxSteal: nat, g: map<Token, Place>)
    requires Agrees(x, v, maxSteal, g) && x.free != []
    requires SameChannels(y, x.(free := x.free[..|x.free| - 1]))
    ensures var k := x.free[|x.free| - 1]; k < maxSteal && (v, k) in g && g[(v, k)] == Free
    ensures Agrees(y, v, maxSteal, g[(v, x.free[|x.free| - 1]) := Nowhere])
  {
  }

  lemma TakeMail(x: Worker, y: Worker, v: nat, maxSteal: nat, g: map<Token, Place>)
    requires Agrees(x, v, maxSteal, g) && x.mail != []
    requires SameChannels(y, x.(mail := x.mail[1..]))
    ensures TokenOf(x.mail[0]) in g && g[TokenOf(x.mail[0])] == Mail(v, x.mail[0])
    ensures Agrees(y, v, maxSteal, g[TokenOf(x.mail[0]) := Nowhere])
  {
  }

  lemma TakeHeld(x: Worker, y: Worker, v: nat, maxSteal: nat, g: map<Token, Place>)
    requires Agrees(x, v, maxSteal, g) && x.held != []
    requires SameChannels(y, x.(held := x.held[1..]))
    ensures TokenOf(x.held[0]) in g && g[TokenOf(x.held[0])] == Held(v, x.held[0])
    ensures Agrees(y, v, maxSteal, g[TokenOf(x.held[0]) := Nowhere])
  {
  }

  lemma TakeHand(x: Worker, y: Worker, v: nat, maxSteal: nat, g: map<Token, Place>)
    requires Agrees(x, v, maxSteal, g) && x.hand.Some?
    requires SameChannels(y, x.(hand := None))
    ensures TokenOf(x.hand.value) in g && g[TokenOf(x.hand.value)] == Hand(v, x.hand.value)
    ensures Agrees(y, v, maxSteal, g[TokenOf(x.hand.value) := Nowhere])
  {
  }

  lemma TakeBox(x: Worker, y: Worker, v: nat, k: nat, maxSteal: nat, g: map<Token, Place>)
    requires Agrees(x, v, maxSteal, g) && k < |x.boxes| && x.boxes[k] != []
    requires SameChannels(y, x.(boxes := x.boxes[k := []]))
    ensures k < maxSteal && (v, k) in g && g[(v, k)] == Box
    ensures Agrees(y, v, maxSteal, g[(v, k) := Nowhere])
  {
  }

  // Putting it into another

  lemma AddFree(x: Worker, y: Worker, v: nat, k: nat, maxSteal: nat, g: map<Token, Place>)
    requires Agrees(x, v, maxSteal, g) && k < maxSteal && (v, k) in g && g[(v, k)] == Nowhere
    requires SameChannels(y, x.(free := x.free + [k]))
    ensures Agrees(y, v, maxSteal, g[(v, k) := Free])
  {
  }

  lemma AddMail(x: Worker, y: Worker, v: nat, r: Request, maxSteal: nat, g: map<Token, Place>)
    requires Agrees(x, v, maxSteal, g) && TokenOf(r) in g && g[TokenOf(r)] == Nowhere
    requires SameChannels(y, x.(mail := x.mail + [r]))
    ensures Agrees(y, v, maxSteal, g[TokenOf(r) := Mail(v, r)])
  {
  }

  lemma AddHeld(x: Worker, y: Worker, v: nat, r: Request, maxSteal: nat, g: map<Token, Place>)
    requires Agrees(x, v, maxSteal, g) && TokenOf(r) in g && g[TokenOf(r)] == Nowhere
    requires SameChannels(y, x.(held := x.held + [r]))
    ensures Agrees(y, v, maxSteal, g[TokenOf(r) := Held(v, r)])
  {
  }

  lemma AddHand(x: Worker, y: Worker, v: nat, r: Request, maxSteal: nat, g: map<Token, Place>)
    requires Agrees(x, v, maxSteal, g) && TokenOf(r) in g && g[TokenOf(r)] == Nowhere && x.hand == None
    requires SameChannels(y, x.(hand := Some(r)))
    ensures Agrees(y, v, maxSteal, g[TokenOf(r) := Hand(v, r)])
  {
  }

  lemma AddBox(x: Worker, y: Worker, v: nat, k: nat, b: seq<Task>, maxSteal: nat, g: map<Token, Place>)
    requires Agrees(x, v, maxSteal, g) && k < maxSteal && (v, k) in g && g[(v, k)] == Nowhere && b != []
    requires k < |x.boxes| && SameChannels(y, x.(boxes := x.boxes[k := b]))
    ensures Agrees(y, v, maxSteal, g[(v, k) := Box])
  {
  }

  // The second half of a move, on the whole state

  lemma ToMail(s: State, g: map<Token, Place>, v: nat, r: Request)
    requires v < |s.ws| && TokenOf(r) in g && Linked(s, g[TokenOf(r) := Nowhere])
    ensures Linked(PutMail(s, v, r), g[TokenOf(r) := Mail(v, r)])
  {
    var t := TokenOf(r);
    var g1 := g[t := Nowhere];
    assert AgreesAt(s, g1, v);
    AddMail(s.ws[v], PutMail(s, v, r).ws[v], v, r, s.maxSteal, g1);
    LinkedOne(s, PutMail(s, v, r), g1, v, t, Mail(v, r));
    assert g1[t := Mail(v, r)] == g[t := Mail(v, r)];
  }

  lemma ToBox(s: State, g: map<Token, Place>, v: nat, k: nat, b: seq<Task>)
    requires v < |s.ws| && k < |s.ws[v].boxes| && (v, k) in g && b != [] && Linked(s, g[(v, k) := Nowhere])
    ensures Linked(PutBox(s, v, k, b), g[(v, k) := Box])
  {
    var t := (v, k);
    var g1 := g[t := Nowhere];
    assert AgreesAt(s, g1, v);
    AddBox(s.ws[v], PutBox(s, v, k, b).ws[v], v, k, b, s.maxSteal, g1);
    LinkedOne(s, PutBox(s, v, k, b), g1, v, t, Box);
    assert g1[t := Box] == g[t := Box];
  }

  // Whole moves

  lemma FreeToMail(s: State, g: map<Token, Place>, w: nat, y: Worker, v: nat, r: Request)
    requires Linked(s, g) && w < |s.ws| && v < |s.ws| && s.ws[w].free != []
    requires SameChannels(y, s.ws[w].(free := s.ws[w].free[..|s.ws[w].free| - 1]))
    requires TokenOf(r) == (w, s.ws[w].free[|s.ws[w].free| - 1])
    ensures TokenOf(r) in g && g[TokenOf(r)] == Free
    ensures Linked(PutMail(SetWorker(s, w, y), v, r), g[TokenOf(r) := Mail(v, r)])
  {
    assert AgreesAt(s, g, w);
    TakeFree(s.ws[w], y, w, s.maxSteal, g);
    LinkedOne(s, SetWorker(s, w, y), g, w, TokenOf(r), Nowhere);
    ToMail(SetWorker(s, w, y), g, v, r);
  }

  lemma HandToMail(s: State, g: map<Token, Place>, w: nat, y: Worker, v: nat, r: Request)
    requires Linked(s, g) && w < |s.ws| && v < |s.ws| && s.ws[w].hand.Some?
    requires SameChannels(y, s.ws[w].(hand := None)) && TokenOf(r) == TokenOf(s.ws[w].hand.value)
    ensures TokenOf(r) in g && g[TokenOf(r)] == Hand(w, s.ws[w].hand.value)
    ensures Linked(PutMail(SetWorker(s, w, y), v, r), g[TokenOf(r) := Mail(v, r)])
  {
    assert AgreesAt(s, g, w);
    TakeHand(s.ws[w], y, w, s.maxSteal, g);
    LinkedOne(s, SetWorker(s, w, y), g, w, TokenOf(r), Nowhere);
    ToMail(SetWorker(s, w, y), g, v, r);
  }

  lemma HandToBox(s: State, g: map<Token, Place>, w: nat, y: Worker, b: seq<Task>)
    requires Linked(s, g) && w < |s.ws| && s.ws[w].hand.Some? && b != []
    requires var r := s.ws[w].hand.value; r.id < |s.ws| && r.id != w && r.chan < |s.ws[r.id].boxes|
    requires SameChannels(y, s.ws[w].(hand := None))
    ensures var r := s.ws[w].hand.value;
            && TokenOf(r) in g && g[TokenOf(r)] == Hand(w, r) && s.ws[r.id].boxes[r.chan] == []
            && Linked(PutBox(SetWorker(s, w, y), r.id, r.chan, b), g[TokenOf(r) := Box])
  {
    var r := s.ws[w].hand.value;
    assert AgreesAt(s, g, w) && AgreesAt(s, g, r.id);
    TakeHand(s.ws[w], y, w, s.maxSteal, g);
    LinkedOne(s, SetWorker(s, w, y), g, w, TokenOf(r), Nowhere);
    ToBox(SetWorker(s, w, y), g, r.id, r.chan, b);
  }

  lemma HeldToBox(s: State, g: map<Token, Place>, w: nat, y: Worker, b: seq<Task>)
    requires Linked(s, g) && w < |s.ws| && s.ws[w].held != [] && b != []
    requires var r := s.ws[w].held[0]; r.id < |s.ws| && r.id != w && r.chan < |s.ws[r.id].boxes|
    requires SameChannels(y, s.ws[w].(held := s.ws[w].held[1..]))
    ensures var r := s.ws[w].held[0];
            && TokenOf(r) in g && g[TokenOf(r)] == Held(w, r) && s.ws[r.id].boxes[r.chan] == []
            && Linked(PutBox(SetWorker(s, w, y), r.id, r.chan, b), g[TokenOf(r) := Box])
  {
    var r := s.ws[w].held[0];
    assert AgreesAt(s, g, w) && AgreesAt(s, g, r.id);
    TakeHeld(s.ws[w], y, w, s.maxSteal, g);
    LinkedOne(s, SetWorker(s, w, y), g, w, TokenOf(r), Nowhere);
    ToBox(SetWorker(s, w, y), g, r.id, r.chan, b);
  }

  lemma HandToFree(s: State, g: map<Token, Place>, w: nat, y: Worker)
    requires Linked(s, g) && w < |s.ws| && s.ws[w].hand.Some? && s.ws[w].hand.value.id == w
    requires SameChannels(y, s.ws[w].(hand := None, free := s.ws[w].free + [s.ws[w].hand.value.chan]))
    ensures var t := TokenOf(s.ws[w].hand.value);
            && t in g && g[t] == Hand(w, s.ws[w].hand.value) && Linked(SetWorker(s, w, y), g[t := Free])
  {
    var x := s.ws[w];
    var t := TokenOf(x.hand.value);
    assert AgreesAt(s, g, w);
    var x1 := x.(hand := None);
    TakeHand(x, x1, w, s.maxSteal, g);
    AddFree(x1, y, w, t.1, s.maxSteal, g[t := Nowhere]);
    assert g[t := Nowhere][t := Free] == g[t := Free];
    LinkedOne(s, SetWorker(s, w, y), g, w, t, Free);
  }

  lemma BoxToFree(s: State, g: map<Token, Place>, w: nat, k: nat, y: Worker)
    requires Linked(s, g) && w < |s.ws| && k < |s.ws[w].boxes| && s.ws[w].boxes[k] != []
    requires SameChannels(y, s.ws[w].(boxes := s.ws[w].boxes[k := []], free := s.ws[w].free + [k]))
    ensures (w, k) in g && g[(w, k)] == Box && Linked(SetWorker(s, w, y), g[(w, k) := Free])
  {
    var x, t := s.ws[w], (w, k);
    assert AgreesAt(s, g, w);
    var x1 := x.(boxes := x.boxes[k := []]);
    TakeBox(x, x1, w, k, s.maxSteal, g);
    AddFree(x1, y, w, k, s.maxSteal, g[t := Nowhere]);
    assert g[t := Nowhere][t := Free] == g[t := Free];
    LinkedOne(s, SetWorker(s, w, y), g, w, t, Free);
  }

  lemma MailToHand(s: State, g: map<Token, Place>, w: nat, y: Worker)
    requires Linked(s, g) && w < |s.ws| && s.ws[w].mail != [] && s.ws[w].hand == None
    requires SameChannels(y, s.ws[w].(mail := s.ws[w].mail[1..], hand := Some(s.ws[w].mail[0])))
    ensures var r := s.ws[w].mail[0];
            && TokenOf(r) in g && g[TokenOf(r)] == Mail(w, r)
            && Linked(SetWorker(s, w, y), g[TokenOf(r) := Hand(w, r)])
  {
    var x := s.ws[w];
    var r := x.mail[0];
    var t := TokenOf(r);
    assert AgreesAt(s, g, w);
    var x1 := x.(mail := x.mail[1..]);
    TakeMail(x, x1, w, s.maxSteal, g);
    AddHand(x1, y, w, r, s.maxSteal, g[t := Nowhere]);
    assert g[t := Nowhere][t := Hand(w, r)] == g[t := Hand(w, r)];
    LinkedOne(s, SetWorker(s, w, y), g, w, t, Hand(w, r));
  }

  lemma MailToHeld(s: State, g: map<Token, Place>, w: nat, y: Worker)
    requires Linked(s, g) && w < |s.ws| && s.ws[w].mail != []
    requires SameChannels(y, s.ws[w].(mail := s.ws[w].mail[1..], held := s.ws[w].held + [s.ws[w].mail[0]]))
    ensures var r := s.ws[w].mail[0];
            && TokenOf(r) in g && g[TokenOf(r)] == Mail(w, r)
            && Linked(SetWorker(s, w, y), g[TokenOf(r) := Held(w, r)])
  {
    var x := s.ws[w];
    var r := x.mail[0];
    var t := TokenOf(r);
    assert AgreesAt(s, g, w);
    var x1 := x.(mail := x.mail[1..]);
    TakeMail(x, x1, w, s.maxSteal, g);
    AddHeld(x1, y, w, r, s.maxSteal, g[t := Nowhere]);
    assert g[t := Nowhere][t := Held(w, r)] == g[t := Held(w, r)];
    LinkedOne(s, SetWorker(s, w, y), g, w, t, Held(w, r));
  }

  lemma MailToOtherHand(s: State, g: map<Token, Place>, v: nat, w: nat)
    requires Linked(s, g) && w < |s.ws| && v < |s.ws| && v != w && s.ws[v].mail != [] && s.ws[w].hand == None
    ensures var r := s.ws[v].mail[0];
            && TokenOf(r) in g && g[TokenOf(r)] == Mail(v, r)
            && Linked(DoReceiveFor(s, w, v), g[TokenOf(r) := Hand(w, r)])
  {
    var r := s.ws[v].mail[0];
    var t := TokenOf(r);
    assert AgreesAt(s, g, v);
    var s1 := SetWorker(s, v, s.ws[v].(mail := s.ws[v].mail[1..]));
    TakeMail(s.ws[v], s1.ws[v], v, s.maxSteal, g);
    LinkedOne(s, s1, g, v, t, Nowhere);
    var s2 := DoReceiveFor(s, w, v);
    var g1 := g[t := Nowhere];
    assert AgreesAt(s1, g1, w);
    AddHand(s1.ws[w], s2.ws[w], w, r, s.maxSteal, g1);
    LinkedOne(s1, s2, g1, w, t, Hand(w, r));
    assert g1[t := Hand(w, r)] == g[t := Hand(w, r)];
  }
}
