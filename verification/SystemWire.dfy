/**
 Both ends and the byte format: in a run of the whole system each end is fed
 what the other sent, so that every datagram either end sends can be encoded and
 is read back as it was meant needs no assumption about what arrives.
 */
module SystemWires {
  import opened Intervals
  import opened Packets
  import opened Systems
  import opened Clients
  import SR = SenderRuns
  import SH = SenderHistory
  import SW = SenderWire
  import CH = ClientHistory
  import CW = ClientWire
  import W = Wire

  ghost predicate WireInv(w: Setup, a: World) { SW.WireInv(w.server, w.named, a.server) && CW.WireOk(a.client) }

  /** A request that starts a transfer can be encoded. */
  predicate SoundRequest(st: Step) {
    st.ClientStep? && st.c.Begin? ==> W.WellFormed(Req(st.c.id, st.c.grant, st.c.begun.assetId))
  }

  lemma ServerStepWires(w: Setup, a: World, s: SH.Step, b: World)
    requires SR.AssetsOk(w.server) && SW.FieldsValid(w.server)
    requires Inv(w, a) && WireInv(w, a) && Moves(w, a, ServerStep(s), b)
    ensures WireInv(w, b)
  {
    if s.Recv? { assert CH.Fine(w.named, s.p) && W.WellFormed(s.p); }
    SW.StepWire(w.server, w.named, a.server, s, b.server);
  }

  lemma ClientStepWires(w: Setup, a: World, c: CH.Step, b: World)
    requires Inv(w, a) && WireInv(w, a) && Moves(w, a, ClientStep(c), b) && SoundRequest(ClientStep(c))
    ensures WireInv(w, b)
  {
    if c.Took? {
      assert W.WellFormed(c.p);
      W.DecodeEncode(c.p);
    }
    CW.StepWires(w.client, a.client, c, b.client);
  }

  lemma {:induction false} RunWires(w: Setup, a: World, steps: seq<Step>, b: World)
    requires SR.AssetsOk(w.server) && SW.FieldsValid(w.server)
    requires Inv(w, a) && WireInv(w, a) && Reaches(w, a, steps, b)
    requires forall i :: 0 <= i < |steps| ==> SoundRequest(steps[i])
    ensures Inv(w, b) && WireInv(w, b)
    decreases |steps|
  {
    if steps != [] {
      var m :| Moves(w, a, steps[0], m) && Reaches(w, m, steps[1..], b);
      StepKeeps(w, a, steps[0], m);
      match steps[0] {
        case ServerStep(s) => ServerStepWires(w, a, s, m);
        case ClientStep(c) => ClientStepWires(w, a, c, m);
      }
      RunWires(w, m, steps[1..], b);
    }
  }

  /** In every run, whatever either end sends is well formed, and decoding its bytes gives it back. */
  lemma EverythingDecodes(w: Setup, steps: seq<Step>, b: World)
    requires SR.AssetsOk(w.server) && SW.FieldsValid(w.server) && IsRun(w, steps, b)
    requires forall i :: 0 <= i < |steps| ==> SoundRequest(steps[i])
    ensures forall p :: p in b.server.out || p in b.client.sent ==> W.WellFormed(p) && W.Decode(W.Encode(p)) == Some(p)
  {
    NewInv(w);
    RunWires(w, NewWorld(w), steps, b);
    forall p | p in b.server.out || p in b.client.sent
      ensures W.WellFormed(p) && W.Decode(W.Encode(p)) == Some(p)
    {
      W.DecodeEncode(p);
    }
  }
}
