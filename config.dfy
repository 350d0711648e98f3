/** The machine lists of the configuration file (src/config.rs). */
module Config {

  /** `Machines`: the three lists read from the file, and `alls`, which the
      file does not set and which is filled in after parsing. */
  class Machines {
    var alls: seq<string>
    var sequencers: seq<string>
    var servers: seq<string>
    var clients: seq<string>

    /** `Config::from_file` once the file has been read and parsed: `alls`
        starts empty and is then generated. */
    constructor FromFile(sequencers: seq<string>, servers: seq<string>, clients: seq<string>)
      ensures this.sequencers == sequencers && this.servers == servers && this.clients == clients
      ensures alls == sequencers + servers + clients
    {
      this.sequencers := sequencers;
      this.servers := servers;
      this.clients := clients;
      alls := [];
      new;
      GenerateAllIps();
    }

    /** `generate_all_ips`: appends every sequencer, then every server, then
        every client. */
    method GenerateAllIps()
      modifies this
      ensures alls == old(alls) + sequencers + servers + clients
      ensures sequencers == old(sequencers) && servers == old(servers) && clients == old(clients)
    {
      for i := 0 to |sequencers|
        invariant sequencers == old(sequencers) && servers == old(servers) && clients == old(clients)
        invariant alls == old(alls) + sequencers[..i]
      {
        alls := alls + [sequencers[i]];
        assert sequencers[..i + 1] == sequencers[..i] + [sequencers[i]];
      }
      assert sequencers[..|sequencers|] == sequencers;
      for i := 0 to |servers|
        invariant sequencers == old(sequencers) && servers == old(servers) && clients == old(clients)
        invariant alls == old(alls) + sequencers + servers[..i]
      {
        alls := alls + [servers[i]];
        assert servers[..i + 1] == servers[..i] + [servers[i]];
      }
      assert servers[..|servers|] == servers;
      for i := 0 to |clients|
        invariant sequencers == old(sequencers) && servers == old(servers) && clients == old(clients)
        invariant alls == old(alls) + sequencers + servers + clients[..i]
      {
        alls := alls + [clients[i]];
        assert clients[..i + 1] == clients[..i] + [clients[i]];
      }
      assert clients[..|clients|] == clients;
    }
  }

  /** Where each machine lands in the generated list: the sequencers first,
      then the servers, then the clients, each list in its own order, and
      nothing else; duplicates are kept. */
  lemma AllIpsLayout(sequencers: seq<string>, servers: seq<string>, clients: seq<string>)
    ensures var alls := sequencers + servers + clients;
      && |alls| == |sequencers| + |servers| + |clients|
      && (forall i :: 0 <= i < |sequencers| ==> alls[i] == sequencers[i])
      && (forall i :: 0 <= i < |servers| ==> alls[|sequencers| + i] == servers[i])
      && (forall i :: 0 <= i < |clients| ==> alls[|sequencers| + |servers| + i] == clients[i])
      && (forall ip :: ip in alls <==> ip in sequencers || ip in servers || ip in clients)
  {
  }
}
