/** A session of no streams: the server starts the test, and nobody is there to end it. */
module SessionIdle {
  import opened States
  import opened Wrappers
  import opened Session

  predicate Opening(v: nat) {
    v == IPERF_EXCHANGE_PARAMS || v == IPERF_CREATE_STREAM || v == TEST_START || v == TEST_RUNNING
  }

  predicate AllOpening(h: seq<nat>) { forall k :: 0 <= k < |h| ==> Opening(h[k]) }

  predicate OpeningFrames(p: Pipe) {
    forall k :: 0 <= k < |p.frames| ==> p.frames[k].StateFrame? && Opening(p.frames[k].state)
  }

  predicate ServerIdles(s: Server) {
    && |s.pcs| == 0 && AllOpening(s.chan.sent)
    && (s.main.SSend? ==> Opening(s.main.state) && (s.main.at.Enqueue? ==> Opening(s.state)))
    && !s.main.SAwaitHandler? && !s.main.SLeft?
    && (s.handler.HIdle? || s.handler.HRead?)
  }

  predicate ClientIdles(c: Client) {
    && |c.pcs| == 0 && AllOpening(c.chan.sent)
    && (c.main.CLoop? || c.main.CLaunch?)
    && c.state != IPERF_DONE && !c.gone && !c.exited
    && (c.handler.KCheck? || c.handler.KRead? || c.handler.KPutParams? || c.handler.KConnect? || c.handler.KStart?
        || c.handler.KPushRunning?)
  }

  /** No stream, no TEST_END, and nothing but the opening of the protocol on either channel and the connection. */
  predicate Idle(st: State) {
    && ServerIdles(st.world.server) && ClientIdles(st.world.client)
    && OpeningFrames(st.toClient)
    && forall k :: 0 <= k < |st.toServer.frames| ==> st.toServer.frames[k].ParamsFrame?
  }

  lemma ServerMainIdles(s: Server, input: Input, o: ServerOutcome)
    requires ServerIdles(s) && ServerMainNext(s, 0, input) == Some(o)
    ensures ServerIdles(o.side)
    ensures o.output == [] || (|o.output| == 1 && o.output[0].StateFrame? && Opening(o.output[0].state))
  {
  }

  lemma KeeperIdles(cfg: Config, c: Client, input: Input, o: ClientOutcome)
    requires cfg.N() == 0 && ClientIdles(c) && ClientHandlerNext(cfg, c, input) == Some(o)
    requires input.Received? ==> input.frame.StateFrame? && Opening(input.frame.state)
    ensures ClientIdles(o.side) && (o.output == [] || (|o.output| == 1 && o.output[0].ParamsFrame?))
  {
  }

  lemma ServerStepIdles(cfg: Config, st: State, a: Action, next: State)
    requires Idle(st) && Step(cfg, st, a) == Some(next) && !a.IsClient() && a.IsControl()
    ensures Idle(next)
  {
    if a.ServerMainStep? {
      var input := if st.world.server.main.SGetParams? then Take(cfg.codec, WantParams, st.toServer) else Nothing;
      if input != Garbage {
        var o := ServerMainNext(st.world.server, 0, input).value;
        ServerMainIdles(st.world.server, input, o);
      }
    } else if a.ServerHandlerStep? {
    } else {
    }
  }

  lemma ClientStepIdles(cfg: Config, st: State, a: Action, next: State)
    requires cfg.N() == 0 && Idle(st) && Step(cfg, st, a) == Some(next) && a.IsClient() && a.IsControl()
    ensures Idle(next)
  {
    if a.ClientHandlerStep? {
      var input := if st.world.client.handler.KRead? then Take(cfg.codec, WantState, st.toClient) else Nothing;
      if input != Garbage {
        var o := ClientHandlerNext(cfg, st.world.client, input).value;
        KeeperIdles(cfg, st.world.client, input, o);
      }
    } else if a.ClientMainStep? {
    } else {
    }
  }

  lemma StepIdles(cfg: Config, st: State, a: Action, next: State)
    requires cfg.N() == 0 && Idle(st) && Step(cfg, st, a) == Some(next)
    ensures Idle(next)
  {
    if a.IsControl() {
      if a.IsClient() {
        ClientStepIdles(cfg, st, a, next);
      } else {
        ServerStepIdles(cfg, st, a, next);
      }
    }
  }

  lemma {:induction false} RunIdles(cfg: Config, st: State, acts: seq<Action>, target: State)
    requires cfg.N() == 0 && Idle(st) && Run(cfg, st, acts) == Some(target)
    ensures Idle(target)
    decreases |acts|
  {
    hide Idle, Step;
    if acts != [] {
      var next := Step(cfg, st, acts[0]).value;
      StepIdles(cfg, st, acts[0], next);
      RunIdles(cfg, next, acts[1..], target);
    }
  }

  /** A session of no streams hangs from the start. */
  lemma NoStreamsHang(cfg: Config, prior: Params, sender: bool)
    requires cfg.N() == 0
    ensures Hung(cfg, Initial(cfg, prior, sender))
  {
    var st := Initial(cfg, prior, sender);
    forall target | Leads(cfg, st, target) ensures !Complete(target) {
      var acts :| Run(cfg, st, acts) == Some(target);
      RunIdles(cfg, st, acts, target);
    }
  }
}
