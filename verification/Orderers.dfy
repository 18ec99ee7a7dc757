/** Adding an orderer to a channel's configuration: the number of signatures a block needs,
    and the lists that have to grow together. */
module Orderers {
  import opened Wrappers

  // ---- The quorum ----

  /** Division of integers cut off towards zero, as `int(a / b)` cuts it. */
  function Truncated(a: int, b: int): int
    requires b > 0
  {
    if a >= 0 then a / b else -(-a / b)
  }

  function Ceiling(a: int, b: int): int
    requires b > 0
  {
    -(-a / b)
  }

  /** How many faulty orderers `n` orderers are meant to stand. */
  function Tolerated(n: int): int {
    Truncated(n - 1, 3)
  }

  function CalculateBftQuorum(n: int): (quorum: int)
    ensures n >= 1 ==> n + Tolerated(n) < 2 * quorum <= n + Tolerated(n) + 2 && 1 <= quorum <= n - Tolerated(n)
  {
    var f := Tolerated(n);
    Ceiling(n + f + 1, 2)
  }

  /** Any two sets of `size` of the orderers share more than `faulty`. */
  ghost predicate Intersecting<T(!new)>(all: set<T>, size: nat, faulty: int) {
    forall a, b | a <= all && b <= all && |a| == size && |b| == size :: |a * b| > faulty
  }

  lemma {:induction false} SubsetSize<T>(a: set<T>, b: set<T>)
    requires a <= b
    ensures |a| <= |b|
  {
    assert b == a + (b - a);
  }

  lemma {:induction false} SomeSubset<T>(all: set<T>, size: nat) returns (some: set<T>)
    requires size <= |all|
    ensures some <= all && |some| == size
  {
    some := all;
    while |some| > size
      invariant some <= all && |some| >= size
    {
      var x :| x in some;
      some := some - {x};
    }
  }

  lemma {:induction false} ShareAtLeast<T>(all: set<T>, a: set<T>, b: set<T>)
    requires a <= all && b <= all
    ensures |a * b| >= |a| + |b| - |all|
  {
    SubsetSize(a + b, all);
  }

  /** Two sets of the size that share as little as two such sets can. */
  lemma {:induction false} FarthestApart<T>(all: set<T>, size: nat) returns (a: set<T>, b: set<T>)
    requires size <= |all|
    ensures a <= all && b <= all && |a| == size && |b| == size
    ensures |a * b| == if 2 * size <= |all| then 0 else 2 * size - |all|
  {
    a := SomeSubset(all, size);
    var rest := all - a;
    assert |rest| == |all| - size by {
      assert all == a + rest;
    }
    var outside := SomeSubset(rest, if size <= |rest| then size else |rest|);
    var inside := SomeSubset(a, size - |outside|);
    b := outside + inside;
    assert outside * inside == {} && a * b == inside;
  }

  /** The computed size is exactly the least whose sets share more orderers than may be
      faulty. */
  lemma {:induction false} QuorumIsLeast<T(!new)>(all: set<T>, size: nat)
    requires 1 <= |all| && size <= |all|
    ensures Intersecting(all, size, Tolerated(|all|)) <==> size >= CalculateBftQuorum(|all|)
  {
    if size >= CalculateBftQuorum(|all|) {
      forall a, b | a <= all && b <= all && |a| == size && |b| == size
        ensures |a * b| > Tolerated(|all|)
      {
        ShareAtLeast(all, a, b);
      }
    } else {
      var a, b := FarthestApart(all, size);
      assert |a * b| <= Tolerated(|all|);
    }
  }

  /** Nor could any size stand more faults: if `faulty` orderers may be faulty and the
      others must be enough for a quorum, some two quorums share no more than `faulty`. */
  lemma {:induction false} ToleratedIsMost<T(!new)>(all: set<T>, faulty: nat)
    requires 1 <= |all| && faulty <= |all|
    ensures faulty <= Tolerated(|all|) <==>
            exists size: nat | size <= |all| - faulty :: Intersecting(all, size, faulty)
  {
    if faulty <= Tolerated(|all|) {
      var size: nat := |all| - faulty;
      forall a, b | a <= all && b <= all && |a| == size && |b| == size
        ensures |a * b| > faulty
      {
        ShareAtLeast(all, a, b);
      }
      assert Intersecting(all, size, faulty);
    } else {
      forall size: nat | size <= |all| - faulty
        ensures !Intersecting(all, size, faulty)
      {
        var a, b := FarthestApart(all, size);
        assert |a * b| <= faulty;
      }
    }
  }

  // ---- The configuration ----

  /** An identity of the block validation policy; `rest` is what a copy keeps. */
  datatype Identity = Identity(idBytes: string, rest: string)

  datatype Consenter = Consenter(
    clientTlsCert: string, host: string, id: int, identity: string, mspId: string, port: string, serverTlsCert: string)

  datatype Config = Config(
    addresses: seq<string>, identities: seq<Identity>, n: int, rules: seq<int>, consenters: seq<Consenter>)

  datatype Fault = NoFile | BadAddress | NoAddress | NoIdentity | NoConsenter

  datatype Addition = Addition(address: string, identity: string, serverCert: string, clientCert: string)

  /** The pieces of a text between colons. */
  function Split(text: string): (pieces: seq<string>)
    ensures pieces != []
  {
    if text == "" then [""]
    else if text[0] == ':' then [""] + Split(text[1..])
    else
      var pieces := Split(text[1..]);
      [[text[0]] + pieces[0]] + pieces[1..]
  }

  lemma {:induction false} SplitNoColon(text: string)
    requires ':' !in text
    ensures Split(text) == [text]
  {
    if text != "" {
      SplitNoColon(text[1..]);
      assert [text[0]] + text[1..] == text;
    }
  }

  lemma {:induction false} SplitAtColon(host: string, rest: string)
    requires ':' !in host
    ensures Split(host + ":" + rest) == [host] + Split(rest)
  {
    var text := host + ":" + rest;
    if host == "" {
      assert text[1..] == rest;
    } else {
      assert text[1..] == host[1..] + ":" + rest;
      assert [text[0]] + host[1..] == host;
      SplitAtColon(host[1..], rest);
    }
  }

  lemma {:induction false} SplitsInTwo(text: string)
    ensures |Split(text)| == 1 ==> ':' !in text && Split(text) == [text]
    ensures |Split(text)| == 2 ==> IsAddress(text, Split(text)[0], Split(text)[1])
  {
    if text != "" {
      var rest := text[1..];
      SplitsInTwo(rest);
      assert text == [text[0]] + rest;
      if text[0] == ':' {
        assert |Split(text)| == 2 ==> text == "" + ":" + rest;
      } else if |Split(rest)| == 2 {
        assert text == ([text[0]] + Split(rest)[0]) + ":" + Split(rest)[1];
      }
    }
  }

  predicate IsAddress(text: string, host: string, port: string) {
    text == host + ":" + port && ':' !in host && ':' !in port
  }

  /** A text splits in two exactly when it is a host, one colon and a port. */
  lemma {:induction false} SplitsExactlyAddresses(text: string)
    ensures |Split(text)| == 2 <==> exists host, port :: IsAddress(text, host, port)
    ensures forall host, port :: IsAddress(text, host, port) ==> Split(text) == [host, port]
  {
    SplitsInTwo(text);
    forall host, port | IsAddress(text, host, port)
      ensures Split(text) == [host, port]
    {
      SplitAtColon(host, port);
      SplitNoColon(port);
      assert [host] + [port] == [host, port];
    }
  }

  function Updated(c: Config, add: Addition): Result<Config, Fault> {
    var pieces := Split(add.address);
    if |pieces| != 2 then Err(BadAddress)
    else if c.addresses == [] then Err(NoAddress)
    else if c.identities == [] then Err(NoIdentity)
    else if c.consenters == [] then Err(NoConsenter)
    else
      var count := |c.addresses| + 1;
      Ok(Config(
        c.addresses + [Split(c.addresses[0])[0] + ":" + pieces[1]],
        c.identities + [Identity(add.identity, c.identities[0].rest)],
        CalculateBftQuorum(count),
        c.rules + [count - 1],
        c.consenters + [
          Consenter(add.clientCert, pieces[0], count, add.identity, c.consenters[0].mspId, pieces[1], add.serverCert)]))
  }

  class Disk {
    var files: map<string, Config>
    // Certificate files, by path, as the base64 text they are read as.
    var certs: map<string, string>

    /** Reads the certificates after the configuration, and writes the updated file last: a
        failure leaves every file as it was. */
    method UpdateConfig(configPath: string, updatedConfigPath: string, address: string, identityPath: string,
                        serverPath: string, clientPath: string) returns (r: Result<(), Fault>)
      modifies this`files
      ensures r.Err? ==> files == old(files)
      ensures configPath !in old(files) || identityPath !in certs || clientPath !in certs || serverPath !in certs ==>
        r == Err(NoFile)
      ensures configPath in old(files) && identityPath in certs && clientPath in certs && serverPath in certs ==>
        var add := Addition(address, certs[identityPath], certs[serverPath], certs[clientPath]);
        match Updated(old(files)[configPath], add)
        case Err(e) => r == Err(e)
        case Ok(config) => r == Ok(()) && files == old(files)[updatedConfigPath := config]
    {
      if configPath !in files {
        return Err(NoFile);
      }
      var config := files[configPath];
      if identityPath !in certs {
        return Err(NoFile);
      }
      var identity := certs[identityPath];
      if clientPath !in certs {
        return Err(NoFile);
      }
      var clientCert := certs[clientPath];
      if serverPath !in certs {
        return Err(NoFile);
      }
      var serverCert := certs[serverPath];
      var pieces := Split(address);
      if |pieces| != 2 {
        return Err(BadAddress);
      }
      var host, port := pieces[0], pieces[1];
      if |config.addresses| == 0 {
        return Err(NoAddress);
      }
      config := config.(addresses := config.addresses + [Split(config.addresses[0])[0] + ":" + port]);
      var newOrderersCount := |config.addresses|;
      if |config.identities| == 0 {
        return Err(NoIdentity);
      }
      var newIdentity := config.identities[0];
      newIdentity := newIdentity.(idBytes := identity);
      config := config.(identities := config.identities + [newIdentity]);
      config := config.(n := CalculateBftQuorum(newOrderersCount));
      config := config.(rules := config.rules + [newOrderersCount - 1]);
      if |config.consenters| == 0 {
        return Err(NoConsenter);
      }
      config := config.(consenters := config.consenters + [
        Consenter(clientCert, host, newOrderersCount, identity, config.consenters[0].mspId, port, serverCert)]);
      files := files[updatedConfigPath := config];
      r := Ok(());
    }
  }

  // ---- Growth ----

  /** The lists have one entry an orderer, in step, and the policy asks for a quorum. */
  ghost predicate WellFormed(c: Config) {
    var count := |c.addresses|;
    && count >= 1 && |c.identities| == count && |c.rules| == count && |c.consenters| == count
    && (forall i :: 0 <= i < count ==> c.rules[i] == i)
    && (forall i :: 0 <= i < count ==> c.consenters[i].id == i + 1)
    && (forall i :: 0 <= i < count ==> c.consenters[i].identity == c.identities[i].idBytes)
    && c.n == CalculateBftQuorum(count)
  }

  /** Additions one after the other, each to the file the last one wrote. */
  function Grown(c: Config, adds: seq<Addition>): Result<Config, Fault> {
    if adds == [] then Ok(c)
    else
      var last := |adds| - 1;
      match Grown(c, adds[..last])
      case Err(e) => Err(e)
      case Ok(before) => Updated(before, adds[last])
  }

  predicate AllSplit(adds: seq<Addition>) {
    forall i :: 0 <= i < |adds| ==> |Split(adds[i].address)| == 2
  }

  /** Any number of additions to a well-formed configuration keeps it well formed, and an
      addition fails only for an address that is not a host and a port. */
  lemma {:induction false} GrowthKeepsForm(c: Config, adds: seq<Addition>)
    requires WellFormed(c)
    ensures Grown(c, adds).Ok? <==> AllSplit(adds)
    ensures Grown(c, adds).Ok? ==>
      var g := Grown(c, adds).value;
      && WellFormed(g) && 1 <= g.n <= |g.addresses| == |c.addresses| + |adds|
      && c.addresses <= g.addresses && c.identities <= g.identities && c.consenters <= g.consenters
  {
    if adds != [] {
      var last := |adds| - 1;
      GrowthKeepsForm(c, adds[..last]);
      AllSplitButLast(adds);
      if Grown(c, adds).Ok? {
        UpdateKeepsForm(Grown(c, adds[..last]).value, adds[last], Grown(c, adds).value);
      }
    }
  }

  lemma {:induction false} AllSplitButLast(adds: seq<Addition>)
    requires adds != []
    ensures AllSplit(adds) <==> AllSplit(adds[..|adds| - 1]) && |Split(adds[|adds| - 1].address)| == 2
  {
    var last := |adds| - 1;
    assert forall i :: 0 <= i < last ==> adds[..last][i] == adds[i];
  }

  lemma {:induction false} UpdateKeepsForm(c: Config, add: Addition, g: Config)
    requires WellFormed(c) && Updated(c, add) == Ok(g)
    ensures WellFormed(g) && 1 <= g.n <= |g.addresses| == |c.addresses| + 1
    ensures c.addresses <= g.addresses && c.identities <= g.identities && c.consenters <= g.consenters
  {
  }

  /** The host of an address: what comes before its first colon, if it has one. */
  ghost predicate IsHostOf(host: string, address: string) {
    ':' !in host && (host == address || exists rest :: address == host + ":" + rest)
  }

  lemma {:induction false} FirstPieceIsHost(address: string)
    ensures IsHostOf(Split(address)[0], address)
  {
    if address == "" {
    } else if address[0] == ':' {
      assert address == "" + ":" + address[1..];
    } else {
      FirstPieceIsHost(address[1..]);
      var host := Split(address[1..])[0];
      assert address == [address[0]] + address[1..];
      if host != address[1..] {
        var rest :| address[1..] == host + ":" + rest;
        assert address == ([address[0]] + host) + ":" + rest;
      }
    }
  }

  /** An orderer's entries in the four lists, as an addition asks for them: certificates and
      identity as given, host and port from its address, and for the rest copies of the
      first entries. */
  ghost predicate EntersAt(g: Config, k: nat, add: Addition) {
    && k < |g.addresses| == |g.identities| == |g.rules| == |g.consenters|
    && g.identities[k].idBytes == add.identity && g.identities[k].rest == g.identities[0].rest
    && g.consenters[k].clientTlsCert == add.clientCert && g.consenters[k].serverTlsCert == add.serverCert
    && g.consenters[k].identity == add.identity && g.consenters[k].mspId == g.consenters[0].mspId
    && g.consenters[k].id == k + 1 && g.rules[k] == k
    && IsAddress(add.address, g.consenters[k].host, g.consenters[k].port)
    && exists first :: IsHostOf(first, g.addresses[0]) && g.addresses[k] == first + ":" + g.consenters[k].port
  }

  lemma {:induction false} UpdateEnters(c: Config, add: Addition, g: Config)
    requires WellFormed(c) && Updated(c, add) == Ok(g)
    ensures EntersAt(g, |c.addresses|, add)
  {
    SplitsInTwo(add.address);
    FirstPieceIsHost(c.addresses[0]);
    assert g.addresses[0] == c.addresses[0];
  }

  /** After any additions, each one's entries are in their place as it asked. */
  lemma {:induction false} EachAdditionEnters(c: Config, adds: seq<Addition>, i: nat)
    requires WellFormed(c) && Grown(c, adds).Ok? && i < |adds|
    ensures EntersAt(Grown(c, adds).value, |c.addresses| + i, adds[i])
  {
    var last := |adds| - 1;
    var before, g := Grown(c, adds[..last]).value, Grown(c, adds).value;
    GrowthKeepsForm(c, adds[..last]);
    UpdateKeepsForm(before, adds[last], g);
    if i == last {
      UpdateEnters(before, adds[last], g);
    } else {
      EachAdditionEnters(c, adds[..last], i);
      StaysEntered(before, g, |c.addresses| + i, adds[i]);
    }
  }

  lemma {:induction false} StaysEntered(c: Config, g: Config, k: nat, add: Addition)
    requires WellFormed(c) && WellFormed(g) && EntersAt(c, k, add)
    requires c.addresses <= g.addresses && c.identities <= g.identities && c.consenters <= g.consenters
    ensures EntersAt(g, k, add)
  {
    assert g.addresses[0] == c.addresses[0] && g.addresses[k] == c.addresses[k];
    assert g.identities[0] == c.identities[0] && g.identities[k] == c.identities[k];
    assert g.consenters[0] == c.consenters[0] && g.consenters[k] == c.consenters[k];
    assert |c.addresses| <= |g.addresses|;
  }

  /** Why an addition fails: its address is not one, or else a list it copies from is empty. */
  lemma {:induction false} FailsExactlyFor(c: Config, add: Addition)
    ensures Updated(c, add) == Err(BadAddress) <==> !exists host, port :: IsAddress(add.address, host, port)
    ensures (exists host, port :: IsAddress(add.address, host, port)) ==>
      && (Updated(c, add) == Err(NoAddress) <==> c.addresses == [])
      && (Updated(c, add) == Err(NoIdentity) <==> c.addresses != [] && c.identities == [])
      && (Updated(c, add) == Err(NoConsenter) <==> c.addresses != [] && c.identities != [] && c.consenters == [])
      && (Updated(c, add).Ok? <==> c.addresses != [] && c.identities != [] && c.consenters != [])
  {
    SplitsExactlyAddresses(add.address);
  }

  /** A block is valid with signatures for `n` of the rules. */
  ghost predicate Validates(c: Config, signers: set<int>) {
    |set i | 0 <= i < |c.rules| && c.rules[i] in signers| >= c.n
  }

  function UpTo(n: nat): (s: set<int>)
    ensures |s| == n && forall i :: i in s <==> 0 <= i < n
  {
    if n == 0 then {} else UpTo(n - 1) + {n - 1}
  }

  function Members(c: Config): set<int> {
    UpTo(|c.identities|)
  }

  lemma {:induction false} SignersAreMembers(c: Config, signers: set<int>)
    requires WellFormed(c)
    ensures Validates(c, signers) <==> |signers * Members(c)| >= c.n
  {
    assert (set i | 0 <= i < |c.rules| && c.rules[i] in signers) == signers * Members(c);
  }

  /** What growth is for: however many orderers have been added, any two sets of signers
      that validate a block share one that is not faulty, and those that are not faulty
      can always validate. */
  lemma {:induction false} GrownIsSafeAndLive(c: Config, adds: seq<Addition>, faulty: set<int>, a: set<int>,
                                              b: set<int>)
    requires WellFormed(c) && Grown(c, adds).Ok?
    requires |faulty| <= Tolerated(|c.addresses| + |adds|)
    ensures var g := Grown(c, adds).value;
            && (Validates(g, a) && Validates(g, b) ==> exists i :: i in a && i in b && i !in faulty && i in Members(g))
            && Validates(g, Members(g) - faulty)
  {
    GrowthKeepsForm(c, adds);
    var g := Grown(c, adds).value;
    var all := Members(g);
    SignersAreMembers(g, a);
    SignersAreMembers(g, b);
    SignersAreMembers(g, all - faulty);
    if Validates(g, a) && Validates(g, b) {
      var common := (a * all) * (b * all);
      ShareAtLeast(all, a * all, b * all);
      if common <= faulty {
        SubsetSize(common, faulty);
      }
      var i :| i in common && i !in faulty;
    }
    assert (all - faulty) * all == all - faulty;
    SubsetSize(all * faulty, faulty);
  }

  // ---- Addresses and consenters ----

  /** Each address is its consenter's host and port. */
  ghost predicate Reachable(c: Config) {
    |c.addresses| == |c.consenters| &&
    forall i :: 0 <= i < |c.addresses| ==> c.addresses[i] == c.consenters[i].host + ":" + c.consenters[i].port
  }

  /** The address gets its host from the first address, the consenter from the argument. */
  predicate SameHost(c: Config, add: Addition) {
    c.addresses != [] && Split(add.address)[0] == Split(c.addresses[0])[0]
  }

  lemma {:induction false} SamePrefix(a: string, b: string, rest: string)
    ensures a + rest == b + rest <==> a == b
  {
    if a + rest == b + rest {
      assert |a| == |b|;
      assert a == (a + rest)[..|a|] && b == (b + rest)[..|b|];
    }
  }

  lemma {:induction false} SameAddress(host: string, other: string, port: string)
    ensures host + ":" + port == other + ":" + port <==> host == other
  {
    assert host + ":" + port == host + (":" + port) && other + ":" + port == other + (":" + port);
    SamePrefix(host, other, ":" + port);
  }

  /** So addresses and consenters agree after any additions exactly when every new orderer
      is on the host of the first one. */
  lemma {:induction false} ReachableOnOneHost(c: Config, adds: seq<Addition>)
    requires WellFormed(c) && Reachable(c) && Grown(c, adds).Ok?
    ensures Reachable(Grown(c, adds).value) <==> forall i :: 0 <= i < |adds| ==> SameHost(c, adds[i])
  {
    if adds != [] {
      var last := |adds| - 1;
      var add := adds[last];
      ReachableOnOneHost(c, adds[..last]);
      GrowthKeepsForm(c, adds[..last]);
      LastReachable(c, Grown(c, adds[..last]).value, add, Grown(c, adds).value);
      assert forall i :: 0 <= i < last ==> adds[..last][i] == adds[i];
    }
  }

  /** One addition on another host is enough, from any configuration whose addresses and
      consenters agree. */
  lemma {:induction false} OtherHostSeparates(c: Config, add: Addition)
    requires WellFormed(c) && Reachable(c) && |Split(add.address)| == 2 && !SameHost(c, add)
    ensures Updated(c, add).Ok? && WellFormed(Updated(c, add).value) && !Reachable(Updated(c, add).value)
  {
    var adds := [add];
    assert adds[..0] == [] && adds[0] == add;
    assert Grown(c, adds[..0]) == Ok(c) && Grown(c, adds) == Updated(c, add);
    UpdateKeepsForm(c, add, Updated(c, add).value);
    ReachableOnOneHost(c, adds);
  }

  const HOST := "127.0.0.1"
  const PORTS := ["6050", "6051", "6052", "6053"]

  /** The four orderers of the sample network, all on one host. */
  function SampleConfig(): Config {
    Config(seq(4, i requires 0 <= i < 4 => HOST + ":" + PORTS[i]),
           seq(4, i requires 0 <= i < 4 => Identity(PORTS[i], "OrdererMSP")),
           CalculateBftQuorum(4),
           seq(4, i => i),
           seq(4, i requires 0 <= i < 4 =>
             Consenter(PORTS[i], HOST, i + 1, PORTS[i], "OrdererMSP", PORTS[i], PORTS[i])))
  }

  lemma {:induction false} SampleFits()
    ensures WellFormed(SampleConfig()) && Reachable(SampleConfig())
    ensures Split(SampleConfig().addresses[0])[0] == HOST
  {
    assert IsAddress(SampleConfig().addresses[0], HOST, PORTS[0]);
    SplitsExactlyAddresses(SampleConfig().addresses[0]);
  }

  /** A fifth orderer on any other host: its endpoint address names the host of the first. */
  lemma {:induction false} FifthOrdererElsewhere(add: Addition, host: string, port: string) returns (g: Config)
    requires IsAddress(add.address, host, port) && host != HOST
    ensures WellFormed(SampleConfig()) && Reachable(SampleConfig()) && Updated(SampleConfig(), add) == Ok(g)
    ensures g.addresses == SampleConfig().addresses + [HOST + ":" + port]
    ensures g.consenters != [] && g.consenters[|g.consenters| - 1].host == host
    ensures WellFormed(g) && !Reachable(g)
  {
    SampleFits();
    SplitsExactlyAddresses(add.address);
    OtherHostSeparates(SampleConfig(), add);
    g := Updated(SampleConfig(), add).value;
  }

  lemma {:induction false} LastReachable(c: Config, before: Config, add: Addition, g: Config)
    requires |before.addresses| == |before.consenters| && c.addresses != [] && before.addresses != []
    requires before.addresses[0] == c.addresses[0] && Updated(before, add) == Ok(g)
    ensures Reachable(g) <==> Reachable(before) && SameHost(c, add)
  {
    var count, port := |before.addresses|, Split(add.address)[1];
    assert g.addresses[..count] == before.addresses && g.consenters[..count] == before.consenters;
    assert forall i :: 0 <= i < count ==> g.addresses[i] == before.addresses[i];
    assert forall i :: 0 <= i < count ==> g.consenters[i] == before.consenters[i];
    assert g.addresses[count] == Split(before.addresses[0])[0] + ":" + port;
    assert g.consenters[count].host + ":" + g.consenters[count].port == Split(add.address)[0] + ":" + port;
    SameAddress(Split(c.addresses[0])[0], Split(add.address)[0], port);
  }
}
