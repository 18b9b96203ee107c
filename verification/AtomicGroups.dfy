/** Deployment groups: which service is restarted on which node, and by which group. */
module AtomicGroups {
  import opened Wrappers

  // An entry of the configuration as loaded; none where it does not have the type asked for.
  datatype Raw = Raw(
    name: Option<string>, mapping: bool, phase: Option<int>,
    nodes: Option<seq<Option<string>>>, services: Option<seq<Option<string>>>)

  datatype Group = Group(phase: int, nodes: seq<string>, services: seq<string>)

  type Pair = (string, string)

  // Trims blanks; a parameter.
  type Strip = string -> string

  predicate NoRepeats<T(==)>(s: seq<T>) { forall i, j :: 0 <= i < j < |s| ==> s[i] != s[j] }

  // ----- the lists of a group ----------------------------------------------------------

  predicate Usable(strip: Strip, x: Option<string>, known: set<string>) {
    x.Some? && strip(x.value) != "" && strip(x.value) in known
  }

  // The stripped names in the order of first appearance.
  function Distinct(strip: Strip, raw: seq<Option<string>>): (names: seq<string>)
    requires forall x :: x in raw ==> x.Some?
    ensures NoRepeats(names)
    ensures forall x :: x in raw ==> strip(x.value) in names
    ensures forall n :: n in names ==> exists x :: x in raw && strip(x.value) == n
    ensures raw != [] ==> names != []
  {
    if raw == [] then []
    else
      var before, n := Distinct(strip, raw[..|raw| - 1]), strip(raw[|raw| - 1].value);
      if n in before then before else before + [n]
  }

  predicate ListOk(strip: Strip, raw: Option<seq<Option<string>>>, known: set<string>) {
    raw.Some? && raw.value != [] && forall x :: x in raw.value ==> Usable(strip, x, known)
  }

  method CleanNames(strip: Strip, raw: Option<seq<Option<string>>>, known: set<string>) returns (r: Option<seq<string>>)
    ensures r.Some? <==> ListOk(strip, raw, known)
    ensures r.Some? ==> r.value == Distinct(strip, raw.value)
    ensures r.Some? ==> "" !in r.value && forall n :: n in r.value ==> n in known
  {
    if raw.None? || raw.value == [] { return None; }
    var names: seq<string> := [];
    for i := 0 to |raw.value|
      invariant forall x :: x in raw.value[..i] ==> Usable(strip, x, known)
      invariant names == Distinct(strip, raw.value[..i])
    {
      var x := raw.value[i];
      if !Usable(strip, x, known) { return None; }
      assert raw.value[..i + 1] == raw.value[..i] + [x];
      if strip(x.value) !in names { names := names + [strip(x.value)]; }
    }
    assert raw.value[..|raw.value|] == raw.value;
    r := Some(names);
  }

  // ----- one group ---------------------------------------------------------------------

  datatype Context = Context(strip: Strip, nodes: set<string>, services: set<string>)

  predicate WellFormed(c: Context, g: Raw) {
    && g.name.Some? && c.strip(g.name.value) != ""
    && g.mapping
    && g.phase.Some? && g.phase.value > 0
    && ListOk(c.strip, g.nodes, c.nodes)
    && ListOk(c.strip, g.services, c.services)
  }

  function Clean(c: Context, g: Raw): Group
    requires WellFormed(c, g)
  {
    Group(g.phase.value, Distinct(c.strip, g.nodes.value), Distinct(c.strip, g.services.value))
  }

  predicate Owns(g: Group, p: Pair) { p.0 in g.services && p.1 in g.nodes }

  // The inner loops: claim every (service, node) pair of a group, unless one is taken.
  method Claim(g: Group, taken: set<Pair>) returns (r: Option<set<Pair>>)
    requires NoRepeats(g.services) && NoRepeats(g.nodes)
    ensures r.Some? <==> forall p :: p in taken ==> !Owns(g, p)
    ensures r.Some? ==> forall p :: p in r.value <==> p in taken || Owns(g, p)
  {
    var seen := taken;
    for i := 0 to |g.services|
      invariant forall p :: p in seen <==> p in taken || (p.0 in g.services[..i] && p.1 in g.nodes)
      invariant forall p :: p in taken && p.0 in g.services[..i] ==> p.1 !in g.nodes
    {
      var s := g.services[i];
      for j := 0 to |g.nodes|
        invariant forall p :: p in seen <==>
                    p in taken || (p.0 in g.services[..i] && p.1 in g.nodes) || (p.0 == s && p.1 in g.nodes[..j])
        invariant forall p :: p in taken && p.0 == s ==> p.1 !in g.nodes[..j]
      {
        var p := (s, g.nodes[j]);
        if p in seen {
          assert p in taken && Owns(g, p);
          return None;
        }
        seen := seen + {p};
        assert g.nodes[..j + 1] == g.nodes[..j] + [g.nodes[j]];
      }
      assert g.nodes[..|g.nodes|] == g.nodes;
      assert g.services[..i + 1] == g.services[..i] + [s];
    }
    assert g.services[..|g.services|] == g.services;
    r := Some(seen);
  }

  // ----- all groups --------------------------------------------------------------------

  ghost predicate Disjoint(g: Group, h: Group) { forall p :: Owns(g, p) ==> !Owns(h, p) }

  // No phase twice and no pair in two groups.
  ghost predicate Compatible(gs: seq<Group>) {
    forall i, j :: 0 <= i < j < |gs| ==> gs[i].phase != gs[j].phase && Disjoint(gs[i], gs[j])
  }

  predicate AllWellFormed(c: Context, raws: seq<Raw>) { forall i :: 0 <= i < |raws| ==> WellFormed(c, raws[i]) }

  function CleanAll(c: Context, raws: seq<Raw>): (gs: seq<Group>)
    requires AllWellFormed(c, raws)
    ensures |gs| == |raws| && forall i :: 0 <= i < |raws| ==> gs[i] == Clean(c, raws[i])
  {
    seq(|raws|, i requires 0 <= i < |raws| => Clean(c, raws[i]))
  }

  // What a configuration must be.
  ghost predicate Acceptable(c: Context, raws: seq<Raw>) { AllWellFormed(c, raws) && Compatible(CleanAll(c, raws)) }

  // The resulting dictionary; a later group takes the place of an earlier one of the same
  // stripped name.
  function Table(c: Context, raws: seq<Raw>): map<string, Group>
    requires AllWellFormed(c, raws)
  {
    if raws == [] then map[]
    else
      var last := raws[|raws| - 1];
      assert WellFormed(c, last);
      Table(c, raws[..|raws| - 1])[c.strip(last.name.value) := Clean(c, last)]
  }

  // The phases and pairs of the groups so far.
  ghost predicate Tracks(gs: seq<Group>, phases: set<int>, taken: set<Pair>) {
    && (forall n :: n in phases <==> exists i :: 0 <= i < |gs| && gs[i].phase == n)
    && (forall p :: p in taken <==> exists i :: 0 <= i < |gs| && Owns(gs[i], p))
  }

  lemma CompatibleNext(gs: seq<Group>, g: Group, phases: set<int>, taken: set<Pair>)
    requires Compatible(gs) && Tracks(gs, phases, taken)
    ensures Compatible(gs + [g]) <==> g.phase !in phases && forall p :: p in taken ==> !Owns(g, p)
  {
    var all, n := gs + [g], |gs|;
    if Compatible(all) {
      forall i | 0 <= i < n ensures gs[i].phase != g.phase && Disjoint(gs[i], g) {
        assert all[i] == gs[i] && all[n] == g;
      }
    }
  }

  lemma TracksNext(gs: seq<Group>, g: Group, phases: set<int>, taken: set<Pair>, next: set<Pair>)
    requires Tracks(gs, phases, taken)
    requires forall p :: p in next <==> p in taken || Owns(g, p)
    ensures Tracks(gs + [g], phases + {g.phase}, next)
  {
    var all, n := gs + [g], |gs|;
    assert all[n] == g && forall i :: 0 <= i < n ==> all[i] == gs[i];
  }

  lemma PrefixAcceptable(c: Context, raws: seq<Raw>, n: nat)
    requires n <= |raws| && Acceptable(c, raws)
    ensures Acceptable(c, raws[..n])
  {
    var gs, hs := CleanAll(c, raws), CleanAll(c, raws[..n]);
    assert forall i :: 0 <= i < n ==> hs[i] == gs[i];
  }

  lemma PrefixSpoils(c: Context, raws: seq<Raw>, n: nat)
    requires n <= |raws| && !Acceptable(c, raws[..n])
    ensures !Acceptable(c, raws)
  {
    if Acceptable(c, raws) { PrefixAcceptable(c, raws, n); }
  }

  function Known(nodes: seq<string>): set<string> { set n | n in nodes }

  // The checks of one group: its cleaned form and the pairs taken after it.
  method Admit(c: Context, g: Raw, phases: set<int>, taken: set<Pair>) returns (r: Option<(Group, set<Pair>)>)
    ensures r.Some? <==> WellFormed(c, g) && g.phase.value !in phases && forall p :: p in taken ==> !Owns(Clean(c, g), p)
    ensures r.Some? ==> r.value.0 == Clean(c, g) && forall p :: p in r.value.1 <==> p in taken || Owns(Clean(c, g), p)
  {
    if g.name.None? || c.strip(g.name.value) == "" || !g.mapping { return None; }
    if g.phase.None? || g.phase.value <= 0 || g.phase.value in phases { return None; }
    var nodes := CleanNames(c.strip, g.nodes, c.nodes);
    if nodes.None? { return None; }
    var services := CleanNames(c.strip, g.services, c.services);
    if services.None? { return None; }
    var group := Group(g.phase.value, nodes.value, services.value);
    var next := Claim(group, taken);
    if next.None? { return None; }
    r := Some((group, next.value));
  }

  // _validate_atomic_groups
  method Validate(strip: Strip, raws: seq<Raw>, services: set<string>, clusterNodes: seq<string>)
    returns (r: Option<map<string, Group>>)
    ensures var c := Context(strip, Known(clusterNodes), services);
            && (r.Some? <==> clusterNodes != [] && Acceptable(c, raws))
            && (r.Some? ==> r.value == Table(c, raws))
  {
    if clusterNodes == [] { return None; }
    var c := Context(strip, Known(clusterNodes), services);
    var out: map<string, Group>, phases: set<int>, taken: set<Pair> := map[], {}, {};
    for i := 0 to |raws|
      invariant Acceptable(c, raws[..i]) && Tracks(CleanAll(c, raws[..i]), phases, taken)
      invariant out == Table(c, raws[..i])
    {
      var admitted := Admit(c, raws[i], phases, taken);
      AcceptableNext(c, raws, i, phases, taken);
      if admitted.None? {
        PrefixSpoils(c, raws, i + 1);
        return None;
      }
      var (group, next) := admitted.value;
      TracksNext(CleanAll(c, raws[..i]), group, phases, taken, next);
      phases, taken := phases + {group.phase}, next;
      out := out[c.strip(raws[i].name.value) := group];
    }
    assert raws[..|raws|] == raws;
    r := Some(out);
  }

  lemma OneMoreGroup(c: Context, raws: seq<Raw>, g: Raw)
    requires AllWellFormed(c, raws) && WellFormed(c, g)
    ensures AllWellFormed(c, raws + [g]) && CleanAll(c, raws + [g]) == CleanAll(c, raws) + [Clean(c, g)]
    ensures Table(c, raws + [g]) == Table(c, raws)[c.strip(g.name.value) := Clean(c, g)]
  {
    assert (raws + [g])[..|raws|] == raws;
  }

  lemma AcceptableNext(c: Context, raws: seq<Raw>, i: nat, phases: set<int>, taken: set<Pair>)
    requires i < |raws| && Acceptable(c, raws[..i]) && Tracks(CleanAll(c, raws[..i]), phases, taken)
    ensures Acceptable(c, raws[..i + 1]) <==>
              WellFormed(c, raws[i]) && raws[i].phase.value !in phases && forall p :: p in taken ==> !Owns(Clean(c, raws[i]), p)
    ensures Acceptable(c, raws[..i + 1]) ==>
              CleanAll(c, raws[..i + 1]) == CleanAll(c, raws[..i]) + [Clean(c, raws[i])]
              && Table(c, raws[..i + 1]) == Table(c, raws[..i])[c.strip(raws[i].name.value) := Clean(c, raws[i])]
  {
    assert raws[..i + 1] == raws[..i] + [raws[i]];
    if WellFormed(c, raws[i]) {
      OneMoreGroup(c, raws[..i], raws[i]);
      CompatibleNext(CleanAll(c, raws[..i]), Clean(c, raws[i]), phases, taken);
    } else {
      assert raws[..i + 1][i] == raws[i];
    }
  }

  function NameOf(c: Context, g: Raw): string
    requires WellFormed(c, g)
  {
    c.strip(g.name.value)
  }

  // Group i is the last one of its name.
  ghost predicate LastNamed(c: Context, raws: seq<Raw>, key: string, i: nat)
    requires AllWellFormed(c, raws)
  {
    && i < |raws| && NameOf(c, raws[i]) == key
    && forall j :: i < j < |raws| ==> NameOf(c, raws[j]) != key
  }

  lemma {:induction false} TableFrom(c: Context, raws: seq<Raw>, key: string) returns (i: nat)
    requires AllWellFormed(c, raws) && key in Table(c, raws)
    ensures LastNamed(c, raws, key, i) && Table(c, raws)[key] == Clean(c, raws[i])
  {
    var n := |raws| - 1;
    if NameOf(c, raws[n]) == key {
      i := n;
    } else {
      i := TableFrom(c, raws[..n], key);
      LastOfPrefix(c, raws, key, i);
    }
  }

  lemma LastOfPrefix(c: Context, raws: seq<Raw>, key: string, i: nat)
    requires raws != [] && AllWellFormed(c, raws)
    requires LastNamed(c, raws[..|raws| - 1], key, i) && NameOf(c, raws[|raws| - 1]) != key
    ensures LastNamed(c, raws, key, i)
  {
    var before := raws[..|raws| - 1];
    assert forall j :: 0 <= j < |before| ==> before[j] == raws[j];
  }

  lemma {:induction false} InTable(c: Context, raws: seq<Raw>, i: nat)
    requires AllWellFormed(c, raws) && i < |raws|
    ensures NameOf(c, raws[i]) in Table(c, raws)
  {
    if i < |raws| - 1 { InTable(c, raws[..|raws| - 1], i); }
  }

  // A group of an accepted configuration survives exactly when no later group has the same
  // name up to surrounding blanks; otherwise it is dropped without an error.
  lemma SurvivesIff(c: Context, raws: seq<Raw>, i: nat)
    requires Acceptable(c, raws) && i < |raws|
    ensures Clean(c, raws[i]) in Table(c, raws).Values <==>
              forall j :: i < j < |raws| ==> NameOf(c, raws[j]) != NameOf(c, raws[i])
  {
    var table, gs := Table(c, raws), CleanAll(c, raws);
    InTable(c, raws, i);
    var k := TableFrom(c, raws, NameOf(c, raws[i]));
    if Clean(c, raws[i]) in table.Values {
      var key :| key in table && table[key] == Clean(c, raws[i]);
      var l := TableFrom(c, raws, key);
      assert gs[l].phase == gs[i].phase;
    }
  }

  // str.strip for blanks
  function TrimLeft(s: string): string { if s != "" && s[0] == ' ' then TrimLeft(s[1..]) else s }

  function TrimRight(s: string): string
    decreases |s|
  {
    if s != "" && s[|s| - 1] == ' ' then TrimRight(s[..|s| - 1]) else s
  }

  function Trim(s: string): string { TrimRight(TrimLeft(s)) }

  lemma Trims(s: string)
    requires s != "" && s[0] != ' ' && s[|s| - 1] != ' '
    ensures Trim(s) == s && Trim(" " + s) == s
  {
    assert (" " + s)[1..] == s;
  }

  function OneService(name: string, phase: int, service: string): Raw {
    Raw(Some(name), true, Some(phase), Some([Some("n")]), Some([Some(service)]))
  }

  lemma OneServiceIs(c: Context, name: string, phase: int, service: string)
    requires c.strip == Trim && "n" in c.nodes && service in c.services && Trim(name) != "" && phase > 0
    requires Trim("n") == "n" && service != "" && Trim(service) == service
    ensures WellFormed(c, OneService(name, phase, service))
    ensures Clean(c, OneService(name, phase, service)) == Group(phase, ["n"], [service])
  {
    var g := OneService(name, phase, service);
    assert g.nodes.value[..0] == [] && g.services.value[..0] == [];
  }

  lemma OtherService(gs: seq<Group>, a: string, b: string)
    requires a != b && gs == [Group(1, ["n"], [a]), Group(2, ["n"], [b])]
    ensures Compatible(gs)
  {
    assert forall p :: Owns(gs[0], p) ==> p.0 == a;
    assert forall p :: Owns(gs[1], p) ==> p.0 == b;
  }

  lemma SecondTakesOver(c: Context, name: string, other: string, a: string, b: string)
    requires c.strip == Trim && "n" in c.nodes && a in c.services && b in c.services && a != b && a != "" && b != ""
    requires Trim("n") == "n" && Trim(a) == a && Trim(b) == b && Trim(name) != "" && Trim(other) == Trim(name)
    ensures var raws := [OneService(name, 1, a), OneService(other, 2, b)];
            Acceptable(c, raws) && Clean(c, raws[0]) !in Table(c, raws).Values
  {
    var raws := [OneService(name, 1, a), OneService(other, 2, b)];
    OneServiceIs(c, name, 1, a);
    OneServiceIs(c, other, 2, b);
    OtherService(CleanAll(c, raws), a, b);
    assert NameOf(c, raws[1]) == NameOf(c, raws[0]);
    SurvivesIff(c, raws, 0);
  }

  // An accepted configuration of two groups, "g" and " g", of which the first is lost.
  lemma LosesAGroup() returns (c: Context, raws: seq<Raw>)
    ensures c.strip == Trim && |raws| == 2 && raws[0].name == Some("g") && raws[1].name == Some(" g")
    ensures Acceptable(c, raws) && Clean(c, raws[0]) !in Table(c, raws).Values
  {
    c := Context(Trim, {"n"}, {"a", "b"});
    raws := [OneService("g", 1, "a"), OneService(" g", 2, "b")];
    Trims("g");
    Trims("n");
    Trims("a");
    Trims("b");
    assert " " + "g" == " g";
    SecondTakesOver(c, "g", " g", "a", "b");
  }

  // ----- emission ----------------------------------------------------------------------

  // What the generator needs of a service: a mapping, the nodes it is bound to, and an image
  // and an entry point it can render.
  datatype Service = Service(mapping: bool, nodes: seq<string>, renders: bool)

  datatype Manifest = Manifest(service: string, nodes: seq<string>)

  function Targets(nodes: seq<string>, bound: seq<string>): (t: seq<string>)
    ensures forall n :: n in t <==> n in nodes && n in bound
    ensures NoRepeats(nodes) ==> NoRepeats(t)
  {
    if nodes == [] then []
    else
      var n, before := nodes[|nodes| - 1], Targets(nodes[..|nodes| - 1], bound);
      if n in bound then before + [n] else before
  }

  // In the order of the group's nodes.
  ghost predicate InOrder(t: seq<string>, nodes: seq<string>) {
    forall i, j :: 0 <= i < j < |t| ==> Before(nodes, t[i], t[j])
  }

  ghost predicate Before(nodes: seq<string>, a: string, b: string) {
    exists i, j :: 0 <= i < j < |nodes| && nodes[i] == a && nodes[j] == b
  }

  lemma {:induction false} TargetsInOrder(nodes: seq<string>, bound: seq<string>)
    ensures InOrder(Targets(nodes, bound), nodes)
  {
    if nodes != [] {
      var first, n := nodes[..|nodes| - 1], nodes[|nodes| - 1];
      TargetsInOrder(first, bound);
      var t, before := Targets(nodes, bound), Targets(first, bound);
      forall i, j | 0 <= i < j < |t|
        ensures Before(nodes, t[i], t[j])
      {
        if j < |before| {
          assert Before(first, before[i], before[j]);
          var p, q :| 0 <= p < q < |first| && first[p] == before[i] && first[q] == before[j];
          assert nodes[p] == t[i] && nodes[q] == t[j];
        } else {
          assert before[i] in first;
          var p :| 0 <= p < |first| && first[p] == before[i];
          assert nodes[p] == t[i] && nodes[|nodes| - 1] == t[j];
        }
      }
    }
  }

  type Services = map<string, Service>

  predicate Bound(config: Services, s: string) { s in config && config[s].mapping && config[s].nodes != [] }

  // The nodes of the group on which a service of it is restarted.
  function TargetsOf(g: Group, config: Services, s: string): seq<string> {
    if Bound(config, s) then Targets(g.nodes, config[s].nodes) else []
  }

  predicate Renders(g: Group, config: Services, s: string) {
    Bound(config, s) && (TargetsOf(g, config, s) != [] ==> config[s].renders)
  }

  // The manifests of the first n services.
  function Manifests(g: Group, config: Services, n: nat): seq<Manifest>
    requires n <= |g.services|
  {
    if n == 0 then []
    else
      var before, s := Manifests(g, config, n - 1), g.services[n - 1];
      if TargetsOf(g, config, s) == [] then before else before + [Manifest(s, TargetsOf(g, config, s))]
  }

  // Manifest i belongs to service k.
  predicate ManifestFor(g: Group, config: Services, m: Manifest, k: nat) {
    k < |g.services| && m == Manifest(g.services[k], TargetsOf(g, config, g.services[k])) && m.nodes != []
  }

  lemma {:induction false} ServiceOf(g: Group, config: Services, n: nat, i: nat) returns (k: nat)
    requires n <= |g.services| && i < |Manifests(g, config, n)|
    ensures k < n && ManifestFor(g, config, Manifests(g, config, n)[i], k)
  {
    if i < |Manifests(g, config, n - 1)| { k := ServiceOf(g, config, n - 1, i); } else { k := n - 1; }
  }

  lemma {:induction false} ManifestOf(g: Group, config: Services, n: nat, k: nat) returns (i: nat)
    requires k < n <= |g.services| && TargetsOf(g, config, g.services[k]) != []
    ensures i < |Manifests(g, config, n)| && ManifestFor(g, config, Manifests(g, config, n)[i], k)
  {
    if k < n - 1 { i := ManifestOf(g, config, n - 1, k); } else { i := |Manifests(g, config, n - 1)|; }
  }

  lemma {:induction false} ServicesDiffer(g: Group, config: Services, n: nat, i: nat, j: nat)
    requires n <= |g.services| && NoRepeats(g.services)
    requires i < j < |Manifests(g, config, n)|
    ensures Manifests(g, config, n)[i].service != Manifests(g, config, n)[j].service
  {
    if j < |Manifests(g, config, n - 1)| {
      ServicesDiffer(g, config, n - 1, i, j);
    } else {
      var k := ServiceOf(g, config, n - 1, i);
    }
  }

  // Every service can be rendered, and at least one has a node in the group.
  ghost predicate Buildable(g: Group, config: Services) {
    && (forall k :: 0 <= k < |g.services| ==> Renders(g, config, g.services[k]))
    && exists k :: 0 <= k < |g.services| && TargetsOf(g, config, g.services[k]) != []
  }

  // What makes a group fail: a service that is not there, is no mapping or is bound to no node, one
  // that is to run on a node of the group and cannot be rendered, or no such service at all.
  lemma BuildableIff(g: Group, config: Services)
    ensures Buildable(g, config) <==>
            && (forall s :: s in g.services ==>
                  && s in config && config[s].mapping && config[s].nodes != []
                  && (Runs(g, config[s]) ==> config[s].renders))
            && exists s :: s in g.services && s in config && Runs(g, config[s])
  {
    forall s | s in config && config[s].mapping && config[s].nodes != []
      ensures TargetsOf(g, config, s) != [] <==> Runs(g, config[s])
    {
      RunsIff(g, config[s]);
    }
    forall k | 0 <= k < |g.services|
      ensures g.services[k] in g.services
    {
    }
  }

  // The service is bound to a node of the group.
  ghost predicate Runs(g: Group, service: Service) { exists n :: n in g.nodes && n in service.nodes }

  lemma RunsIff(g: Group, service: Service)
    ensures Targets(g.nodes, service.nodes) != [] <==> Runs(g, service)
  {
    var t := Targets(g.nodes, service.nodes);
    if t != [] { assert t[0] in t; }
    if n :| n in g.nodes && n in service.nodes { assert n in t; }
  }

  // _build_atomic_group_daemonsets
  method Build(g: Group, config: Services) returns (r: Option<seq<Manifest>>)
    ensures r.Some? <==> Buildable(g, config)
    ensures r.Some? ==> r.value == AllManifests(g, config)
  {
    var ms: seq<Manifest> := [];
    for i := 0 to |g.services|
      invariant forall k :: 0 <= k < i ==> Renders(g, config, g.services[k])
      invariant ms == Manifests(g, config, i)
    {
      var s := g.services[i];
      if !Bound(config, s) { return None; }
      var targets := Targets(g.nodes, config[s].nodes);
      if targets != [] {
        if !config[s].renders { return None; }
        ms := ms + [Manifest(s, targets)];
      }
    }
    EmptyIff(g, config);
    r := if ms == [] then None else Some(ms);
  }

  lemma EmptyIff(g: Group, config: Services)
    ensures AllManifests(g, config) != [] <==> exists k :: 0 <= k < |g.services| && TargetsOf(g, config, g.services[k]) != []
  {
    var n := |g.services|;
    if AllManifests(g, config) != [] { var k := ServiceOf(g, config, n, 0); }
    if k :| 0 <= k < n && TargetsOf(g, config, g.services[k]) != [] { var i := ManifestOf(g, config, n, k); }
  }

  predicate Emits(m: Manifest, p: Pair) { p.0 == m.service && p.1 in m.nodes }

  function AllManifests(g: Group, config: Services): seq<Manifest> { Manifests(g, config, |g.services|) }

  ghost predicate EmitsPair(g: Group, config: Services, p: Pair) {
    exists i :: 0 <= i < |AllManifests(g, config)| && Emits(AllManifests(g, config)[i], p)
  }

  // A group's manifests emit exactly its own pairs whose service is bound to the node.
  lemma EmitsIff(g: Group, config: Services, p: Pair)
    ensures EmitsPair(g, config, p) <==> Owns(g, p) && Bound(config, p.0) && p.1 in config[p.0].nodes
  {
    var n := |g.services|;
    if i :| 0 <= i < |AllManifests(g, config)| && Emits(AllManifests(g, config)[i], p) {
      var k := ServiceOf(g, config, n, i);
      assert g.services[k] == p.0;
    }
    if Owns(g, p) && Bound(config, p.0) && p.1 in config[p.0].nodes {
      var k :| 0 <= k < n && g.services[k] == p.0;
      assert p.1 in TargetsOf(g, config, p.0);
      var i := ManifestOf(g, config, n, k);
      assert Emits(AllManifests(g, config)[i], p);
    }
  }

  lemma OnceInGroup(g: Group, config: Services, i: nat, j: nat, p: Pair)
    requires NoRepeats(g.services) && NoRepeats(g.nodes)
    requires i < |AllManifests(g, config)| && Emits(AllManifests(g, config)[i], p)
    requires j < |AllManifests(g, config)| && Emits(AllManifests(g, config)[j], p)
    ensures i == j && NoRepeats(AllManifests(g, config)[i].nodes)
  {
    var k := ServiceOf(g, config, |g.services|, i);
    if i < j { ServicesDiffer(g, config, |g.services|, i, j); }
    if j < i { ServicesDiffer(g, config, |g.services|, j, i); }
  }

  lemma OneOwner(c: Context, raws: seq<Raw>, k1: string, k2: string, p: Pair)
    requires Acceptable(c, raws) && k1 in Table(c, raws) && k2 in Table(c, raws)
    requires Owns(Table(c, raws)[k1], p) && Owns(Table(c, raws)[k2], p)
    ensures k1 == k2
    ensures NoRepeats(Table(c, raws)[k1].services) && NoRepeats(Table(c, raws)[k1].nodes)
  {
    var j1 := TableFrom(c, raws, k1);
    var j2 := TableFrom(c, raws, k2);
    OnePosition(CleanAll(c, raws), j1, j2, p);
    CleanHasNoRepeats(c, raws[j1]);
  }

  lemma OnePosition(gs: seq<Group>, i: nat, j: nat, p: Pair)
    requires Compatible(gs) && i < |gs| && j < |gs| && Owns(gs[i], p) && Owns(gs[j], p)
    ensures i == j
  {
  }

  lemma CleanHasNoRepeats(c: Context, g: Raw)
    requires WellFormed(c, g)
    ensures NoRepeats(Clean(c, g).services) && NoRepeats(Clean(c, g).nodes)
  {
  }

  // No pair is emitted twice: not by two groups, not by two manifests of one group, and no
  // manifest names a node twice.
  lemma EmittedOnce(c: Context, raws: seq<Raw>, config: Services, k1: string, i1: nat, k2: string, i2: nat, p: Pair)
    requires Acceptable(c, raws) && k1 in Table(c, raws) && k2 in Table(c, raws)
    requires i1 < |AllManifests(Table(c, raws)[k1], config)| && Emits(AllManifests(Table(c, raws)[k1], config)[i1], p)
    requires i2 < |AllManifests(Table(c, raws)[k2], config)| && Emits(AllManifests(Table(c, raws)[k2], config)[i2], p)
    ensures k1 == k2 && i1 == i2
    ensures NoRepeats(AllManifests(Table(c, raws)[k1], config)[i1].nodes)
  {
    EmitsIff(Table(c, raws)[k1], config, p);
    EmitsIff(Table(c, raws)[k2], config, p);
    OneOwner(c, raws, k1, k2, p);
    OnceInGroup(Table(c, raws)[k1], config, i1, i2, p);
  }
}
