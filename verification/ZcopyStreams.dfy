/** The two streams of a zcopy connection: while one is not torn it parses, and each receive reads the kind
    of item it waits for. */
module ZcopyStreams {
  import opened Counters
  import opened Wire
  import opened Protocol
  import opened Zcopy
  import opened ZcopyInv
  import opened ZcopyClientSteps
  import opened ZcopyLoopSteps
  import opened ZcopyServerSteps
  import opened ZcopyFrames
  import opened ZcopyFlaws
  import opened ZcopyTheorems

  // ---------------------------------------------------------------- alignment

  /** The stream to the client parses as control messages and adjacent header-data pairs, and the
      receive loop reads the kind of item that is there: a control message at a control receive, and
      at a payload receive the data message sent right after the header it read last. */
  ghost predicate DownAligned(s: State) {
    && Parses(s.net.s2c)
    && (CanRecvControl(s) ==> s.net.s2c[s.net.s2cRead].Ctl?)
    && (CanRecvPayload(s) ==> ReadsOwnPayload(s.net.s2c, s.net.s2cRead, s.cl.recv.meta))
  }

  /** The same for the stream to the server and the serve loop. */
  ghost predicate UpAligned(s: State) {
    && Parses(s.net.c2s)
    && (CanServe(s) ==> s.net.c2s[s.net.c2sRead].Ctl?)
    && (CanServePayload(s) ==> ReadsOwnPayload(s.net.c2s, s.net.c2sRead, s.sv.serve.put))
  }

  predicate ReadsOwnPayload(log: seq<Item>, at: nat, header: Message)
    requires at < |log|
  {
    && at > 0 && log[at - 1] == Ctl(header)
    && log[at].Data? && Matches(header, log[at].off, log[at].body)
  }

  lemma DownAlignedUnlessTorn(s: State)
    requires Inv(s) && !s.gh.torn
    ensures DownAligned(s)
  {
    hide Tables, Routes, Windows, TaskRequests, Places, Replies, Alive, Memory, Results, Tokens, OneHello, Credits, Matches, Parses, ModeOf;
    ParsesIffSound(s.net.s2c);
    if CanRecvControl(s) {
      ReadNext(s.net.s2c, s.net.s2cRead, Clear, s.sv.lock.Some?, s.gh.torn);
    }
    if CanRecvPayload(s) {
      ReadNext(s.net.s2c, s.net.s2cRead, Expect(s.cl.recv.meta), s.sv.lock.Some?, s.gh.torn);
    }
  }

  lemma UpAlignedUnlessTorn(s: State)
    requires Inv(s) && !s.gh.upTorn
    ensures UpAligned(s)
  {
    hide Tables, Routes, Windows, TaskRequests, Places, Replies, Alive, Memory, Results, Tokens, OneHello, Credits, Matches, Parses, ModeOf;
    ParsesIffSound(s.net.c2s);
    if CanServe(s) {
      ReadNext(s.net.c2s, s.net.c2sRead, Clear, s.cl.opMid, s.gh.upTorn);
    }
    if CanServePayload(s) {
      ReadNext(s.net.c2s, s.net.c2sRead, Expect(s.sv.serve.put), s.cl.opMid, s.gh.upTorn);
    }
  }

  /** Stream alignment, each way on its own, over every run from the start in which no step tears that
      stream and no payload is obeyed, whatever else happens to the other. */
  lemma StreamAlignment(u: Setup, es: seq<Event>)
    requires Usable(u) && CanRun(Init(u), es) && Avoids(Init(u), es, Misread)
    ensures Avoids(Init(u), es, Down) ==> DownAligned(Run(Init(u), es))
    ensures Avoids(Init(u), es, Up) ==> UpAligned(Run(Init(u), es))
  {
    hide Inv, Can, Do, DownAligned, UpAligned, Causes;
    var s := Init(u);
    InitInv(u);
    RunKeeps(s, es);
    FlawlessIffAvoided(s, es, Down);
    FlawlessIffAvoided(s, es, Up);
    if Avoids(s, es, Down) {
      DownAlignedUnlessTorn(Run(s, es));
    }
    if Avoids(s, es, Up) {
      UpAlignedUnlessTorn(Run(s, es));
    }
  }

  /** No payload is obeyed as long as neither stream is torn: then none is read where a control
      message is expected. */
  lemma {:induction false} UntornNeverObeys(s: State, es: seq<Event>)
    requires Inv(s) && !s.gh.torn && !s.gh.upTorn
    requires CanRun(s, es) && Avoids(s, es, Down) && Avoids(s, es, Up)
    ensures Avoids(s, es, Misread)
    decreases |es|
  {
    hide Inv, Can, Do, PayloadSpoiled, PutSpoiled, RefusesPut, Parses, ReadsOwnPayload;
    if es != [] {
      DownAlignedUnlessTorn(s);
      UpAlignedUnlessTorn(s);
      StepKeeps(s, es[0]);
      FlawIffCaused(s, es[0], Down);
      FlawIffCaused(s, es[0], Up);
      UntornNeverObeys(Do(s, es[0]), es[1..]);
    }
  }

  lemma UntornFromStart(u: Setup, es: seq<Event>)
    requires Usable(u) && CanRun(Init(u), es) && Avoids(Init(u), es, Down) && Avoids(Init(u), es, Up)
    ensures Avoids(Init(u), es, Misread)
  {
    hide Inv, Can, Do, Causes;
    InitInv(u);
    UntornNeverObeys(Init(u), es);
  }

  // ------------------------------------------------------------- single steps

  /** A message on which the serve loop ends: a PUT with a negative offset that is not refused before. */
  predicate EndsLoop(m: Message, maxObjectSize: int) {
    m.PutReq? && !PutRejected(m, maxObjectSize) && m.dataOffset.Some? && m.dataOffset.value < 0
  }

  /** The loop is about to report an error; what it reads next, if anything, is a payload; and having
      reported it, it ends on that payload exactly when the payload does not decode as a control
      message, or does as one that ends the loop. */
  ghost predicate AnswersOverPayload(s: State) {
    && s.sv.serve.Replying? && s.sv.serve.reply.RespErr?
    && (s.net.c2sRead < |s.net.c2s| ==>
          && s.net.c2s[s.net.c2sRead].Data?
          && (s.sv.lock == None ==>
                var taken := s.decode(s.net.c2s[s.net.c2sRead].body);
                Serve(ServeReply(s, true, true)).sv.serve == Exited
                <==> taken == None || EndsLoop(taken.value, s.sv.maxObjectSize)))
  }

  /** A refused PUT leaves the serve loop at a control receive with the payload next in the stream. */
  lemma RejectedPutLeavesPayload(s: State)
    requires CanServe(s) && s.net.c2s[s.net.c2sRead].Ctl? && RefusesPut(s) && !s.gh.upTorn
    requires Inv(s)
    ensures AnswersOverPayload(Serve(s))
  {
    hide InvUpTo, PutRejected, ModeOf, Trim, Matches, RefusesPut;
    RefusedState(s);
    var s' := Serve(s);
    if s'.net.c2sRead < |s'.net.c2s| {
      PayloadAfterPut(s);
      if s'.sv.lock == None {
        EndsIff(ServeReply(s', true, true));
      }
    }
  }

  lemma RefusedState(s: State)
    requires CanServe(s) && s.net.c2s[s.net.c2sRead].Ctl? && RefusesPut(s)
    ensures var s' := Serve(s);
            && s'.sv.serve == Replying(RespErr(s.net.c2s[s.net.c2sRead].msg.reqId)) && s'.decode == s.decode
            && s'.net == s.net.(c2sRead := s.net.c2sRead + 1) && s'.sv.maxObjectSize == s.sv.maxObjectSize
            && s.net.c2s[s.net.c2sRead].msg.PutReq? && s.net.c2s[s.net.c2sRead].msg.size > 0
  {
    hide PutRejected;
  }

  lemma PayloadAfterPut(s: State)
    requires CanServe(s) && s.net.c2sRead + 1 < |s.net.c2s| && !s.gh.upTorn
    requires s.net.c2s[s.net.c2sRead].Ctl? && s.net.c2s[s.net.c2sRead].msg.PutReq? && s.net.c2s[s.net.c2sRead].msg.size > 0
    requires Inv(s)
    ensures s.net.c2s[s.net.c2sRead + 1].Data?
  {
    hide ClientInv, ServerInv, GetInv, CreditInv, ModeOf;
    var x := s.net.c2s[s.net.c2sRead];
    ReadNext(s.net.c2s, s.net.c2sRead, Clear, s.cl.opMid, s.gh.upTorn);
    ReadNext(s.net.c2s, s.net.c2sRead + 1, Expect(x.msg), s.cl.opMid, s.gh.upTorn);
  }

  lemma EndsIff(s: State)
    requires CanServe(s) && s.net.c2s[s.net.c2sRead].Data?
    ensures Serve(s).sv.serve == Exited
       <==> ServerTakes(s) == None || EndsLoop(ServerTakes(s).value, s.sv.maxObjectSize)
  {
    hide Trim;
  }
}
