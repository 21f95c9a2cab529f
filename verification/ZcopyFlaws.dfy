/** What can go wrong for good on a zcopy connection, and exactly which steps do it. */
module ZcopyFlaws {
  import opened Counters
  import opened Wire
  import opened Protocol
  import opened Zcopy
  import opened ZcopyFrames

  /** The stream to the client, the stream to the server, a window, or a payload that is received as a
      control message and obeyed. */
  datatype Flaw = Down | Up | Window | Misread

  predicate Has(s: State, f: Flaw) {
    match f case Down => s.gh.torn case Up => s.gh.upTorn case Window => s.gh.overrun case Misread => s.gh.misread
  }

  /** The steps that cause it. A header goes to the client without its whole payload when the payload
      is empty, does not fit, has 2^32 bytes or more or an offset beyond them, or fails to be sent. One
      goes to the server when the payload of a PUT, which is not empty, has 2^32 bytes or more or an offset
      beyond them or fails to be sent, and a payload is left unread when the PUT is refused for its size
      (or its names). A window is exceeded by a GET with max 0, which asks for no limit, of
      any object that is not empty. A payload is obeyed when one is read where a control message is
      expected and its bytes decode. */
  ghost predicate Causes(s: State, e: Event, f: Flaw) {
    match f
    case Down => e.ESendPayload? && PayloadSpoiled(s, e.id, e.ok)
    case Up => (e.ESendData? && PutSpoiled(s, e.ok)) || (e.EServe? && RefusesPut(s))
    case Window => e.ELookUp? && NoLimit(s, e.id)
    case Misread => (e.EServe? && ServerObeys(s)) || (e.ERecvControl? && ClientObeys(s))
  }

  predicate PayloadSpoiled(s: State, id: nat, ok: bool) {
    CanSendPayload(s, id) && !SentWhole(s, s.sv.tasks[id], ok)
  }

  predicate PutSpoiled(s: State, ok: bool) {
    CanSendData(s) && var k := s.cl.kinds[s.cl.ops[s.cl.opHead].id];
      k.size > 0 && (!ok || k.size >= TWO32 || k.off >= TWO32)
  }

  predicate RefusesPut(s: State) {
    CanServe(s) && ServerTakes(s).Some? && var m := ServerTakes(s).value;
      m.PutReq? && m.size > 0 && PutRejected(m, s.sv.maxObjectSize)
  }

  predicate NoLimit(s: State, id: nat) {
    id in s.sv.tasks && var m := s.sv.tasks[id].msg;
      m.GetReq? && var name := (Trim(m.bucket), Trim(m.key));
      && m.max == 0 && name.0 != [] && name.1 != [] && m.dataOffset.Some?
      && name in s.sv.objects && s.sv.objects[name] != []
  }

  predicate ServerObeys(s: State) {
    CanServe(s) && s.net.c2s[s.net.c2sRead].Data? && ServerTakes(s).Some?
  }

  predicate ClientObeys(s: State) {
    CanRecvControl(s) && s.net.s2c[s.net.s2cRead].Data? && ClientTakes(s).Some?
  }

  /** And no other step does. */
  lemma FlawIffCaused(s: State, e: Event, f: Flaw)
    requires Can(s, e)
    ensures Has(Do(s, e), f) <==> Has(s, f) || Causes(s, e, f)
  {
    hide CallerDoes, LoopDoes, ServeLoopDoes, RoutineDoes, WorldDoes, CallerCan, LoopCan, ServeLoopCan, RoutineCan, WorldCan, Has, Causes;
    if ByServeLoop(e) {
      ServeLoopFlaws(s, e, f);
    } else if ByRoutine(e) {
      RoutineFlaws(s, e, f);
    } else if ByCaller(e) {
      CallerFlaws(s, e, f);
    } else if ByLoop(e) {
      LoopFlaws(s, e, f);
    } else {
      WorldFlaws(s, e, f);
    }
  }

  lemma CallerFlaws(s: State, e: Event, f: Flaw)
    requires ByCaller(e) && Can(s, e)
    ensures Has(CallerDoes(s, e), f) <==> Has(s, f) || Causes(s, e, f)
  {
    hide CallerDoes, CallerCan;
    if AtClient(e) {
      ClientLeaves(s, e);
    } else {
      CallLeavesFlaws(s, e);
    }
  }

  lemma LoopFlaws(s: State, e: Event, f: Flaw)
    requires ByLoop(e) && Can(s, e)
    ensures Has(LoopDoes(s, e), f) <==> Has(s, f) || Causes(s, e, f)
  {
    hide LoopDoes, PutSpoiled, ClientObeys;
    match e
    case ERecvControl => ReadFlaws(s);
    case ESendData(ok) => PutFlaws(s, ok);
    case _ => QueueFlaws(s, e, f);
  }

  lemma QueueFlaws(s: State, e: Event, f: Flaw)
    requires ByLoop(e) && Can(s, e) && !e.ERecvControl? && !e.ESendData?
    ensures Has(LoopDoes(s, e), f) == Has(s, f)
  {
    hide LoopDoes, LoopCan;
    ClientLeaves(s, e);
  }

  lemma WorldFlaws(s: State, e: Event, f: Flaw)
    requires ByWorld(e) && Can(s, e)
    ensures Has(WorldDoes(s, e), f) <==> Has(s, f) || Causes(s, e, f)
  {
    hide Land, LandPart;
    match e
    case ELand => LandFrame(s);
    case ELandPart(k) => LandPartFrame(s, k);
    case EChangeObjects(_) =>
  }

  lemma ReadFlaws(s: State)
    requires CanRecvControl(s)
    ensures LoopDoes(s, ERecvControl).gh == s.gh.(misread := s.gh.misread || ClientObeys(s))
  {
    hide RecvControl, ClientTakes;
    RecvControlFrame(s);
  }

  lemma CallLeavesFlaws(s: State, e: Event)
    requires Can(s, e) && (e.EIssue? || e.EAppWrite?)
    ensures forall f :: Has(CallerDoes(s, e), f) == Has(s, f)
  {
    hide CanIssue, CanAppWrite, Splice;
  }

  lemma PutFlaws(s: State, ok: bool)
    requires CanSendData(s)
    ensures LoopDoes(s, ESendData(ok)).gh == s.gh.(upTorn := s.gh.upTorn || PutSpoiled(s, ok))
  {
    hide Splice;
  }

  lemma ServeLoopFlaws(s: State, e: Event, f: Flaw)
    requires ByServeLoop(e) && Can(s, e)
    ensures Has(ServeLoopDoes(s, e), f) <==> Has(s, f) || Causes(s, e, f)
  {
    hide Serve, ServePayload, ServeReply, RefusesPut, ServerTakes;
    match e
    case EServe =>
      ServeTears(s);
      ServeFrame(s);
    case EServePayload => ServePayloadFrame(s);
    case EServeReply(ok, goOn) => ServeReplyFrame(s, ok, goOn);
    case EServeFail =>
  }

  lemma ServeTears(s: State)
    requires CanServe(s)
    ensures Serve(s).gh.upTorn <==> s.gh.upTorn || RefusesPut(s)
  {
    hide PutRejected, Trim, ServerTakes;
  }

  lemma RoutineFlaws(s: State, e: Event, f: Flaw)
    requires ByRoutine(e) && Can(s, e)
    ensures Has(RoutineDoes(s, e), f) <==> Has(s, f) || Causes(s, e, f)
  {
    hide LookUp, SendHeader, SendPayload, NoLimit, PayloadSpoiled;
    match e
    case ELookUp(id) => LookUpFlaws(s, id);
    case ESendHeader(id, ok) => SendHeaderFrame(s, id, ok);
    case ESendPayload(id, ok) => PayloadFlaws(s, id, ok);
    case _ =>
  }

  lemma PayloadFlaws(s: State, id: nat, ok: bool)
    requires CanSendPayload(s, id)
    ensures SendPayload(s, id, ok).gh == s.gh.(torn := s.gh.torn || PayloadSpoiled(s, id, ok))
  {
    hide SentWhole, Sent;
  }

  lemma LookUpFlaws(s: State, id: nat)
    requires CanLookUp(s, id)
    ensures LookUp(s, id).gh == s.gh.(overrun := s.gh.overrun || NoLimit(s, id))
  {
    hide Trim;
  }

  ghost predicate Avoids(s: State, es: seq<Event>, f: Flaw)
    requires CanRun(s, es)
    decreases |es|
  {
    es == [] || (!Causes(s, es[0], f) && Avoids(Do(s, es[0]), es[1..], f))
  }

  /** A run ends without the flaw if and only if no step of it causes the flaw. */
  lemma {:induction false} FlawlessIffAvoided(s: State, es: seq<Event>, f: Flaw)
    requires CanRun(s, es) && !Has(s, f)
    ensures !Has(Run(s, es), f) <==> Avoids(s, es, f)
    decreases |es|
  {
    hide Can, Do, Causes, Has;
    if es != [] {
      FlawIffCaused(s, es[0], f);
      if Causes(s, es[0], f) {
        FlawStays(Do(s, es[0]), es[1..], f);
      } else {
        FlawlessIffAvoided(Do(s, es[0]), es[1..], f);
      }
    }
  }

  lemma {:induction false} FlawStays(s: State, es: seq<Event>, f: Flaw)
    requires CanRun(s, es) && Has(s, f)
    ensures Has(Run(s, es), f)
    decreases |es|
  {
    hide Can, Do, Causes, Has;
    if es != [] {
      FlawIffCaused(s, es[0], f);
      FlawStays(Do(s, es[0]), es[1..], f);
    }
  }

  /** The decoder is the same for the whole run. */
  lemma DecoderStays(s: State, e: Event)
    requires Can(s, e)
    ensures Do(s, e).decode == s.decode
  {
    hide CallerDoes, LoopDoes, ServeLoopDoes, RoutineDoes, CallerCan, RoutineCan, Land, LandPart;
    if e.ERecvControl? {
      RecvKeepsDecoder(s);
    } else if AtClient(e) {
      ClientLeaves(s, e);
    } else if e.EServe? {
      ServeKeepsDecoder(s);
    } else if AtServer(e) {
      ServerLeaves(s, e);
    } else if ByCaller(e) {
      CallKeepsDecoder(s, e);
    } else if e.ESendData? {
      PutKeepsDecoder(s, e.ok);
    } else if e.ELand? {
      LandFrame(s);
    } else {
      LandPartFrame(s, e.k);
    }
  }

  lemma RecvKeepsDecoder(s: State)
    requires CanRecvControl(s)
    ensures LoopDoes(s, ERecvControl).decode == s.decode
  {
    hide RecvControl;
    RecvControlFrame(s);
  }

  lemma ServeKeepsDecoder(s: State)
    requires CanServe(s)
    ensures ServeLoopDoes(s, EServe).decode == s.decode
  {
    hide Serve;
    ServeFrame(s);
  }

  lemma CallKeepsDecoder(s: State, e: Event)
    requires Can(s, e) && (e.EIssue? || e.EAppWrite?)
    ensures CallerDoes(s, e).decode == s.decode
  {
    hide CanIssue, CanAppWrite, Splice;
  }

  lemma PutKeepsDecoder(s: State, ok: bool)
    requires CanSendData(s)
    ensures LoopDoes(s, ESendData(ok)).decode == s.decode
  {
  }

  /** If no payload has the form of a control message, none is ever obeyed. */
  lemma {:induction false} NothingDecodesNothingObeyed(s: State, es: seq<Event>)
    requires CanRun(s, es) && forall b :: s.decode(b) == None
    ensures Avoids(s, es, Misread)
    decreases |es|
  {
    hide Can, Do;
    if es != [] {
      DecoderStays(s, es[0]);
      NothingDecodesNothingObeyed(Do(s, es[0]), es[1..]);
    }
  }
}
