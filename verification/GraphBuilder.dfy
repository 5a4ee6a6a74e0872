/** What a pod spec refers to, and the loops that link it to a graph: its node, its
    service account, its config maps, secrets and claims
    (internal/graph/dependencies.go). */
module GraphBuilder {
  import opened Wrappers
  import opened Signals
  import opened Graph

  // ----- What a pod spec refers to -----

  datatype Names = Names(configMap: Option<string>, secret: Option<string>)

  datatype Container = Container(env: seq<Names>, envFrom: seq<Names>)

  datatype Projection = Projection(secret: Option<string>, configMap: Option<string>, token: bool)

  datatype Volume = Volume(names: Names, claim: Option<string>, projected: seq<Projection>)

  datatype PodSpec = PodSpec(
    nodeName: string, serviceAccount: string, pullSecrets: seq<string>, containers: seq<Container>,
    initContainers: seq<Container>, volumes: seq<Volume>)

  datatype Link = Link(rel: RelType, dst: Ref)

  function Named(kind: string, ns: string, name: string): Ref {
    Ref("v1", kind, ns, name, "")
  }

  function ConfigMapLink(ns: string, name: string): Link {
    Link(UsesConfigMap, Named("ConfigMap", ns, name))
  }

  function SecretLink(ns: string, name: string): Link {
    Link(UsesSecret, Named("Secret", ns, name))
  }

  function NodeLink(name: string): Link {
    Link(ScheduledOn, Named("Node", "", name))
  }

  function ClaimLink(ns: string, name: string): Link {
    Link(UsesPVC, Named("PersistentVolumeClaim", ns, name))
  }

  function PullSecretLink(ns: string, name: string): Link {
    Link(UsesImagePullSecret, Named("Secret", ns, name))
  }

  function AccountLink(ns: string, name: string): Link {
    Link(UsesServiceAccount, Named("ServiceAccount", ns, name))
  }

  function If(on: bool, link: Link): seq<Link> {
    if on then [link] else []
  }

  function OrEmpty(name: Option<string>): string {
    if name.Some? then name.value else ""
  }

  function NamesLinks(ns: string, n: Names): seq<Link> {
    If(n.configMap.Some?, ConfigMapLink(ns, OrEmpty(n.configMap)))
    + If(n.secret.Some?, SecretLink(ns, OrEmpty(n.secret)))
  }

  /** A projected secret or config map without a name is passed over. */
  function ProjectionLinks(ns: string, account: string, p: Projection): seq<Link> {
    If(OrEmpty(p.secret) != "", SecretLink(ns, OrEmpty(p.secret)))
    + If(OrEmpty(p.configMap) != "", ConfigMapLink(ns, OrEmpty(p.configMap)))
    + If(p.token, AccountLink(ns, account))
  }

  function Concat<T>(xs: seq<T>, links: T -> seq<Link>): seq<Link> {
    if xs == [] then [] else Concat(xs[..|xs| - 1], links) + links(xs[|xs| - 1])
  }

  function NamesIn(ns: string): Names -> seq<Link> {
    (n: Names) => NamesLinks(ns, n)
  }

  function ContainerLinks(ns: string, c: Container): seq<Link> {
    Concat(c.env, NamesIn(ns)) + Concat(c.envFrom, NamesIn(ns))
  }

  function ContainersIn(ns: string): Container -> seq<Link> {
    (c: Container) => ContainerLinks(ns, c)
  }

  function ProjectionsIn(ns: string, account: string): Projection -> seq<Link> {
    (p: Projection) => ProjectionLinks(ns, account, p)
  }

  function VolumeLinks(ns: string, account: string, v: Volume): seq<Link> {
    NamesLinks(ns, v.names) + If(v.claim.Some?, ClaimLink(ns, OrEmpty(v.claim)))
    + Concat(v.projected, ProjectionsIn(ns, account))
  }

  function VolumesIn(ns: string, account: string): Volume -> seq<Link> {
    (v: Volume) => VolumeLinks(ns, account, v)
  }

  function PullSecretsIn(ns: string): string -> seq<Link> {
    (s: string) => [PullSecretLink(ns, s)]
  }

  function OwnLinks(ns: string, spec: PodSpec): seq<Link> {
    If(spec.nodeName != "", NodeLink(spec.nodeName))
    + If(spec.serviceAccount != "", AccountLink(ns, spec.serviceAccount))
  }

  /** Everything a pod spec refers to, in the order the edges are added. */
  function Links(ns: string, spec: PodSpec): seq<Link> {
    AllButVolumes(ns, spec) + Concat(spec.volumes, VolumesIn(ns, spec.serviceAccount))
  }

  function AllButVolumes(ns: string, spec: PodSpec): seq<Link> {
    OwnLinks(ns, spec) + Concat(spec.pullSecrets, PullSecretsIn(ns))
    + Concat(spec.containers, ContainersIn(ns)) + Concat(spec.initContainers, ContainersIn(ns))
  }

  function From(src: Ref, links: seq<Link>): seq<Edge> {
    seq(|links|, i requires 0 <= i < |links| => Edge(links[i].rel, src, links[i].dst))
  }

  // ----- Graphs built from edges alone -----

  /** The nodes after these edges are added. */
  function NodesPlus(nodes: seq<Ref>, edges: seq<Edge>): seq<Ref> {
    if edges == [] then nodes
    else
      var e := edges[|edges| - 1];
      WithNode(WithNode(NodesPlus(nodes, edges[..|edges| - 1]), e.src), e.dst)
  }

  ghost predicate Grown(g: Graph)
    reads g
  {
    g.Valid() && g.nodes == NodesPlus([g.root], g.edges)
  }

  /** Since the start, the graph has gained these links of src. */
  ghost predicate Gained(g: Graph, start: seq<Edge>, src: Ref, links: seq<Link>)
    reads g
  {
    Grown(g) && g.edges == start + From(src, links)
  }

  lemma FromStep(start: seq<Edge>, src: Ref, links: seq<Link>, link: Link)
    ensures start + From(src, links + [link]) == start + From(src, links) + [Edge(link.rel, src, link.dst)]
  {
    assert From(src, links + [link]) == From(src, links) + [Edge(link.rel, src, link.dst)];
  }

  lemma NodesStep(nodes: seq<Ref>, edges: seq<Edge>, e: Edge)
    ensures NodesPlus(nodes, edges + [e]) == WithNode(WithNode(NodesPlus(nodes, edges), e.src), e.dst)
  {
    assert (edges + [e])[..|edges|] == edges;
  }

  method AddLink(g: Graph, src: Ref, link: Link, ghost start: seq<Edge>, ghost links: seq<Link>)
    requires Gained(g, start, src, links)
    modifies g`nodes, g`visited, g`edges
    ensures Gained(g, start, src, links + [link])
  {
    FromStep(start, src, links, link);
    NodesStep([g.root], g.edges, Edge(link.rel, src, link.dst));
    g.AddEdge(link.rel, src, link.dst);
  }

  /** One conditional edge of the builder. */
  method AddIf(g: Graph, src: Ref, on: bool, link: Link, ghost start: seq<Edge>, ghost links: seq<Link>)
    requires Gained(g, start, src, links)
    modifies g`nodes, g`visited, g`edges
    ensures Gained(g, start, src, links + If(on, link))
  {
    if on {
      AddLink(g, src, link, start, links);
    } else {
      assert links + [] == links;
    }
  }

  lemma Assoc<T>(a: seq<T>, b: seq<T>, c: seq<T>)
    ensures a + b + c == a + (b + c)
  {
  }

  lemma ConcatStep<T>(xs: seq<T>, i: nat, f: T -> seq<Link>, links: seq<Link>)
    requires i < |xs|
    ensures links + Concat(xs[..i + 1], f) == links + Concat(xs[..i], f) + f(xs[i])
  {
    assert xs[..i + 1][..i] == xs[..i];
  }

  method AddNames(g: Graph, src: Ref, ns: string, n: Names, ghost start: seq<Edge>, ghost links: seq<Link>)
    requires Gained(g, start, src, links)
    modifies g`nodes, g`visited, g`edges
    ensures Gained(g, start, src, links + NamesLinks(ns, n))
  {
    var configMap := OrEmpty(n.configMap);
    var secret := OrEmpty(n.secret);
    AddIf(g, src, n.configMap.Some?, ConfigMapLink(ns, configMap), start, links);
    ghost var more := links + If(n.configMap.Some?, ConfigMapLink(ns, configMap));
    AddIf(g, src, n.secret.Some?, SecretLink(ns, secret), start, more);
    assert more + If(n.secret.Some?, SecretLink(ns, secret)) == links + NamesLinks(ns, n);
  }

  method AddEachNames(g: Graph, src: Ref, ns: string, xs: seq<Names>, ghost start: seq<Edge>, ghost links: seq<Link>)
    requires Gained(g, start, src, links)
    modifies g`nodes, g`visited, g`edges
    ensures Gained(g, start, src, links + Concat(xs, NamesIn(ns)))
  {
    assert links + [] == links;
    for i := 0 to |xs|
      invariant Gained(g, start, src, links + Concat(xs[..i], NamesIn(ns)))
    {
      ConcatStep(xs, i, NamesIn(ns), links);
      AddNames(g, src, ns, xs[i], start, links + Concat(xs[..i], NamesIn(ns)));
    }
    assert xs[..|xs|] == xs;
  }

  method AddContainer(g: Graph, src: Ref, ns: string, c: Container, ghost start: seq<Edge>, ghost links: seq<Link>)
    requires Gained(g, start, src, links)
    modifies g`nodes, g`visited, g`edges
    ensures Gained(g, start, src, links + ContainerLinks(ns, c))
  {
    AddEachNames(g, src, ns, c.env, start, links);
    ghost var more := links + Concat(c.env, NamesIn(ns));
    AddEachNames(g, src, ns, c.envFrom, start, more);
    Assoc(links, Concat(c.env, NamesIn(ns)), Concat(c.envFrom, NamesIn(ns)));
  }

  method AddContainers(g: Graph, src: Ref, ns: string, xs: seq<Container>, ghost start: seq<Edge>,
                       ghost links: seq<Link>)
    requires Gained(g, start, src, links)
    modifies g`nodes, g`visited, g`edges
    ensures Gained(g, start, src, links + Concat(xs, ContainersIn(ns)))
  {
    assert links + [] == links;
    for i := 0 to |xs|
      invariant Gained(g, start, src, links + Concat(xs[..i], ContainersIn(ns)))
    {
      ConcatStep(xs, i, ContainersIn(ns), links);
      AddContainer(g, src, ns, xs[i], start, links + Concat(xs[..i], ContainersIn(ns)));
    }
    assert xs[..|xs|] == xs;
  }

  method AddProjections(g: Graph, src: Ref, ns: string, account: string, xs: seq<Projection>, ghost start: seq<Edge>,
                        ghost links: seq<Link>)
    requires Gained(g, start, src, links)
    modifies g`nodes, g`visited, g`edges
    ensures Gained(g, start, src, links + Concat(xs, ProjectionsIn(ns, account)))
  {
    assert links + [] == links;
    for i := 0 to |xs|
      invariant Gained(g, start, src, links + Concat(xs[..i], ProjectionsIn(ns, account)))
    {
      ConcatStep(xs, i, ProjectionsIn(ns, account), links);
      AddProjection(g, src, ns, account, xs[i], start, links + Concat(xs[..i], ProjectionsIn(ns, account)));
    }
    assert xs[..|xs|] == xs;
  }

  method AddProjection(g: Graph, src: Ref, ns: string, account: string, p: Projection, ghost start: seq<Edge>,
                       ghost links: seq<Link>)
    requires Gained(g, start, src, links)
    modifies g`nodes, g`visited, g`edges
    ensures Gained(g, start, src, links + ProjectionLinks(ns, account, p))
  {
    var secret := OrEmpty(p.secret);
    var configMap := OrEmpty(p.configMap);
    AddIf(g, src, secret != "", SecretLink(ns, secret), start, links);
    ghost var more := links + If(secret != "", SecretLink(ns, secret));
    AddIf(g, src, configMap != "", ConfigMapLink(ns, configMap), start, more);
    more := more + If(configMap != "", ConfigMapLink(ns, configMap));
    AddIf(g, src, p.token, AccountLink(ns, account), start, more);
    Assoc(links, If(secret != "", SecretLink(ns, secret)), If(configMap != "", ConfigMapLink(ns, configMap)));
    Assoc(links, If(secret != "", SecretLink(ns, secret)) + If(configMap != "", ConfigMapLink(ns, configMap)),
          If(p.token, AccountLink(ns, account)));
  }

  method AddVolumes(g: Graph, src: Ref, ns: string, account: string, xs: seq<Volume>, ghost start: seq<Edge>,
                    ghost links: seq<Link>)
    requires Gained(g, start, src, links)
    modifies g`nodes, g`visited, g`edges
    ensures Gained(g, start, src, links + Concat(xs, VolumesIn(ns, account)))
  {
    assert links + [] == links;
    for i := 0 to |xs|
      invariant Gained(g, start, src, links + Concat(xs[..i], VolumesIn(ns, account)))
    {
      ConcatStep(xs, i, VolumesIn(ns, account), links);
      AddVolume(g, src, ns, account, xs[i], start, links + Concat(xs[..i], VolumesIn(ns, account)));
    }
    assert xs[..|xs|] == xs;
  }

  method AddVolume(g: Graph, src: Ref, ns: string, account: string, v: Volume, ghost start: seq<Edge>,
                   ghost links: seq<Link>)
    requires Gained(g, start, src, links)
    modifies g`nodes, g`visited, g`edges
    ensures Gained(g, start, src, links + VolumeLinks(ns, account, v))
  {
    AddNames(g, src, ns, v.names, start, links);
    ghost var more := links + NamesLinks(ns, v.names);
    AddIf(g, src, v.claim.Some?, ClaimLink(ns, OrEmpty(v.claim)), start, more);
    more := more + If(v.claim.Some?, ClaimLink(ns, OrEmpty(v.claim)));
    AddProjections(g, src, ns, account, v.projected, start, more);
    Assoc(links, NamesLinks(ns, v.names), If(v.claim.Some?, ClaimLink(ns, OrEmpty(v.claim))));
    Assoc(links, NamesLinks(ns, v.names) + If(v.claim.Some?, ClaimLink(ns, OrEmpty(v.claim))),
          Concat(v.projected, ProjectionsIn(ns, account)));
  }

  method AddPullSecrets(g: Graph, src: Ref, ns: string, names: seq<string>, ghost start: seq<Edge>,
                        ghost links: seq<Link>)
    requires Gained(g, start, src, links)
    modifies g`nodes, g`visited, g`edges
    ensures Gained(g, start, src, links + Concat(names, PullSecretsIn(ns)))
  {
    assert links + [] == links;
    for i := 0 to |names|
      invariant Gained(g, start, src, links + Concat(names[..i], PullSecretsIn(ns)))
    {
      ConcatStep(names, i, PullSecretsIn(ns), links);
      AddLink(g, src, PullSecretLink(ns, names[i]), start, links + Concat(names[..i], PullSecretsIn(ns)));
    }
    assert names[..|names|] == names;
  }

  method AddOwnLinks(g: Graph, src: Ref, ns: string, spec: PodSpec, ghost start: seq<Edge>)
    requires Gained(g, start, src, [])
    modifies g`nodes, g`visited, g`edges
    ensures Gained(g, start, src, OwnLinks(ns, spec))
  {
    AddIf(g, src, spec.nodeName != "", NodeLink(spec.nodeName), start, []);
    assert [] + If(spec.nodeName != "", NodeLink(spec.nodeName)) == If(spec.nodeName != "", NodeLink(spec.nodeName));
    AddIf(g, src, spec.serviceAccount != "", AccountLink(ns, spec.serviceAccount), start,
          If(spec.nodeName != "", NodeLink(spec.nodeName)));
  }

  /** The graph gains exactly the references of the spec. */
  method FromPodSpec(g: Graph, ns: string, owner: Ref, spec: PodSpec)
    requires Grown(g)
    modifies g`nodes, g`visited, g`edges
    ensures Grown(g) && g.edges == old(g.edges) + From(owner, Links(ns, spec))
  {
    ghost var start := g.edges;
    assert start + From(owner, []) == start;
    AddOwnLinks(g, owner, ns, spec, start);
    ghost var links := OwnLinks(ns, spec);
    AddPullSecrets(g, owner, ns, spec.pullSecrets, start, links);
    links := links + Concat(spec.pullSecrets, PullSecretsIn(ns));
    AddContainers(g, owner, ns, spec.containers, start, links);
    links := links + Concat(spec.containers, ContainersIn(ns));
    AddContainers(g, owner, ns, spec.initContainers, start, links);
    AddVolumes(g, owner, ns, spec.serviceAccount, spec.volumes, start, AllButVolumes(ns, spec));
  }

  // ----- What the references of a spec are -----

  lemma {:induction false} InConcat<T>(xs: seq<T>, f: T -> seq<Link>, l: Link)
    ensures l in Concat(xs, f) <==> exists x :: x in xs && l in f(x)
  {
    if xs != [] {
      var most, last := xs[..|xs| - 1], xs[|xs| - 1];
      assert xs == most + [last];
      InConcat(most, f, l);
    }
  }

  predicate NamesSecret(n: Names, name: string) {
    n.secret == Some(name)
  }

  predicate NamesConfigMap(n: Names, name: string) {
    n.configMap == Some(name)
  }

  /** A variable of the container, or a source of variables, is taken from it. */
  predicate InContainer(c: Container, names: Names -> bool) {
    exists n :: n in c.env + c.envFrom && names(n)
  }

  lemma NamesInLinks(ns: string, n: Names, name: string)
    ensures SecretLink(ns, name) in NamesLinks(ns, n) <==> NamesSecret(n, name)
    ensures ConfigMapLink(ns, name) in NamesLinks(ns, n) <==> NamesConfigMap(n, name)
  {
  }

  lemma ContainerInLinks(ns: string, c: Container, name: string)
    ensures SecretLink(ns, name) in ContainerLinks(ns, c) <==> InContainer(c, n => NamesSecret(n, name))
    ensures ConfigMapLink(ns, name) in ContainerLinks(ns, c) <==> InContainer(c, n => NamesConfigMap(n, name))
  {
    InConcat(c.env, NamesIn(ns), SecretLink(ns, name));
    InConcat(c.envFrom, NamesIn(ns), SecretLink(ns, name));
    InConcat(c.env, NamesIn(ns), ConfigMapLink(ns, name));
    InConcat(c.envFrom, NamesIn(ns), ConfigMapLink(ns, name));
    forall n ensures SecretLink(ns, name) in NamesIn(ns)(n) <==> NamesSecret(n, name)
      ensures ConfigMapLink(ns, name) in NamesIn(ns)(n) <==> NamesConfigMap(n, name)
    {
      NamesInLinks(ns, n, name);
    }
    assert forall n :: n in c.env + c.envFrom <==> n in c.env || n in c.envFrom;
  }

  /** The volume is the secret, or projects it by a name that is not empty. */
  predicate VolumeOfSecret(v: Volume, name: string) {
    NamesSecret(v.names, name) || (name != "" && exists p :: p in v.projected && p.secret == Some(name))
  }

  predicate VolumeOfConfigMap(v: Volume, name: string) {
    NamesConfigMap(v.names, name) || (name != "" && exists p :: p in v.projected && p.configMap == Some(name))
  }

  lemma VolumeInLinks(ns: string, account: string, v: Volume, name: string)
    ensures SecretLink(ns, name) in VolumeLinks(ns, account, v) <==> VolumeOfSecret(v, name)
    ensures ConfigMapLink(ns, name) in VolumeLinks(ns, account, v) <==> VolumeOfConfigMap(v, name)
  {
    NamesInLinks(ns, v.names, name);
    ProjectedInLinks(ns, account, v.projected, name);
    assert forall l :: l in If(v.claim.Some?, ClaimLink(ns, OrEmpty(v.claim))) ==> l.rel == UsesPVC;
  }

  lemma ProjectedInLinks(ns: string, account: string, ps: seq<Projection>, name: string)
    ensures SecretLink(ns, name) in Concat(ps, ProjectionsIn(ns, account)) <==>
            name != "" && exists p :: p in ps && p.secret == Some(name)
    ensures ConfigMapLink(ns, name) in Concat(ps, ProjectionsIn(ns, account)) <==>
            name != "" && exists p :: p in ps && p.configMap == Some(name)
  {
    InConcat(ps, ProjectionsIn(ns, account), SecretLink(ns, name));
    InConcat(ps, ProjectionsIn(ns, account), ConfigMapLink(ns, name));
    forall p ensures SecretLink(ns, name) in ProjectionsIn(ns, account)(p) <==> name != "" && p.secret == Some(name)
      ensures ConfigMapLink(ns, name) in ProjectionsIn(ns, account)(p) <==> name != "" && p.configMap == Some(name)
    {
      ProjectionInLinks(ns, account, p, name);
    }
  }

  lemma ProjectionInLinks(ns: string, account: string, p: Projection, name: string)
    ensures SecretLink(ns, name) in ProjectionLinks(ns, account, p) <==> name != "" && p.secret == Some(name)
    ensures ConfigMapLink(ns, name) in ProjectionLinks(ns, account, p) <==> name != "" && p.configMap == Some(name)
  {
  }

  lemma ContainersInLinks(ns: string, cs: seq<Container>, name: string)
    ensures SecretLink(ns, name) in Concat(cs, ContainersIn(ns)) <==>
            exists c :: c in cs && InContainer(c, n => NamesSecret(n, name))
    ensures ConfigMapLink(ns, name) in Concat(cs, ContainersIn(ns)) <==>
            exists c :: c in cs && InContainer(c, n => NamesConfigMap(n, name))
  {
    InConcat(cs, ContainersIn(ns), SecretLink(ns, name));
    InConcat(cs, ContainersIn(ns), ConfigMapLink(ns, name));
    forall c ensures SecretLink(ns, name) in ContainersIn(ns)(c) <==> InContainer(c, n => NamesSecret(n, name))
      ensures ConfigMapLink(ns, name) in ContainersIn(ns)(c) <==> InContainer(c, n => NamesConfigMap(n, name))
    {
      ContainerInLinks(ns, c, name);
    }
  }

  lemma VolumesInLinks(ns: string, account: string, vs: seq<Volume>, name: string)
    ensures SecretLink(ns, name) in Concat(vs, VolumesIn(ns, account)) <==>
            exists v :: v in vs && VolumeOfSecret(v, name)
    ensures ConfigMapLink(ns, name) in Concat(vs, VolumesIn(ns, account)) <==>
            exists v :: v in vs && VolumeOfConfigMap(v, name)
  {
    InConcat(vs, VolumesIn(ns, account), SecretLink(ns, name));
    InConcat(vs, VolumesIn(ns, account), ConfigMapLink(ns, name));
    forall v ensures SecretLink(ns, name) in VolumesIn(ns, account)(v) <==> VolumeOfSecret(v, name)
      ensures ConfigMapLink(ns, name) in VolumesIn(ns, account)(v) <==> VolumeOfConfigMap(v, name)
    {
      VolumeInLinks(ns, account, v, name);
    }
  }

  lemma OtherLinks(ns: string, spec: PodSpec, l: Link)
    requires l in OwnLinks(ns, spec) + Concat(spec.pullSecrets, PullSecretsIn(ns))
    ensures l.rel == ScheduledOn || l.rel == UsesServiceAccount || l.rel == UsesImagePullSecret
  {
    InConcat(spec.pullSecrets, PullSecretsIn(ns), l);
  }

  /** A spec links to a secret exactly when a container names it or a volume is made
      of it, whatever it pulls images with; and the same for a config map. */
  lemma LinksExactly(ns: string, spec: PodSpec, name: string)
    ensures Link(UsesSecret, Ref("v1", "Secret", ns, name, "")) in Links(ns, spec) <==>
            || (exists c :: c in spec.containers && InContainer(c, n => NamesSecret(n, name)))
            || (exists c :: c in spec.initContainers && InContainer(c, n => NamesSecret(n, name)))
            || exists v :: v in spec.volumes && VolumeOfSecret(v, name)
    ensures Link(UsesConfigMap, Ref("v1", "ConfigMap", ns, name, "")) in Links(ns, spec) <==>
            || (exists c :: c in spec.containers && InContainer(c, n => NamesConfigMap(n, name)))
            || (exists c :: c in spec.initContainers && InContainer(c, n => NamesConfigMap(n, name)))
            || exists v :: v in spec.volumes && VolumeOfConfigMap(v, name)
  {
    ContainersInLinks(ns, spec.containers, name);
    ContainersInLinks(ns, spec.initContainers, name);
    VolumesInLinks(ns, spec.serviceAccount, spec.volumes, name);
    forall l | l in OwnLinks(ns, spec) + Concat(spec.pullSecrets, PullSecretsIn(ns))
      ensures l != SecretLink(ns, name) && l != ConfigMapLink(ns, name)
    {
      OtherLinks(ns, spec, l);
    }
  }

  // ----- The other links -----

  /** The one kind of link a list of links is made of. */
  predicate AllOf(links: seq<Link>, rels: set<RelType>) {
    forall l :: l in links ==> l.rel in rels
  }

  lemma {:induction false} ConcatAllOf<T>(xs: seq<T>, f: T -> seq<Link>, rels: set<RelType>)
    requires forall x :: AllOf(f(x), rels)
    ensures AllOf(Concat(xs, f), rels)
  {
    if xs != [] {
      ConcatAllOf(xs[..|xs| - 1], f, rels);
    }
  }

  lemma ContainersOnlyName(ns: string, cs: seq<Container>)
    ensures AllOf(Concat(cs, ContainersIn(ns)), {UsesConfigMap, UsesSecret})
  {
    forall c ensures AllOf(ContainersIn(ns)(c), {UsesConfigMap, UsesSecret}) {
      forall n ensures AllOf(NamesIn(ns)(n), {UsesConfigMap, UsesSecret}) {}
      ConcatAllOf(c.env, NamesIn(ns), {UsesConfigMap, UsesSecret});
      ConcatAllOf(c.envFrom, NamesIn(ns), {UsesConfigMap, UsesSecret});
    }
    ConcatAllOf(cs, ContainersIn(ns), {UsesConfigMap, UsesSecret});
  }

  lemma ProjectionsInLinks(ns: string, account: string, ps: seq<Projection>, l: Link)
    requires l.rel !in {UsesConfigMap, UsesSecret}
    ensures l in Concat(ps, ProjectionsIn(ns, account)) <==>
            l == AccountLink(ns, account) && exists p :: p in ps && p.token
  {
    InConcat(ps, ProjectionsIn(ns, account), l);
    forall p ensures l in ProjectionsIn(ns, account)(p) <==> p.token && l == AccountLink(ns, account) {}
  }

  /** What a volume links to beside secrets and config maps: its claim, and the
      service account if it projects a token. */
  lemma VolumeLinksExactly(ns: string, account: string, v: Volume, l: Link)
    requires l.rel !in {UsesConfigMap, UsesSecret}
    ensures l in VolumeLinks(ns, account, v) <==>
            || (v.claim.Some? && l == ClaimLink(ns, v.claim.value))
            || (l == AccountLink(ns, account) && exists p :: p in v.projected && p.token)
  {
    ProjectionsInLinks(ns, account, v.projected, l);
    assert AllOf(NamesLinks(ns, v.names), {UsesConfigMap, UsesSecret});
  }

  lemma VolumesLinksExactly(ns: string, account: string, vs: seq<Volume>, l: Link)
    requires l.rel !in {UsesConfigMap, UsesSecret}
    ensures l in Concat(vs, VolumesIn(ns, account)) <==>
            || (exists v :: v in vs && v.claim.Some? && l == ClaimLink(ns, v.claim.value))
            || (l == AccountLink(ns, account) && exists v, p :: v in vs && p in v.projected && p.token)
  {
    InConcat(vs, VolumesIn(ns, account), l);
    forall v ensures l in VolumesIn(ns, account)(v) <==>
                     || (v.claim.Some? && l == ClaimLink(ns, v.claim.value))
                     || (l == AccountLink(ns, account) && exists p :: p in v.projected && p.token)
    {
      VolumeLinksExactly(ns, account, v, l);
    }
  }

  lemma OwnLinksMean(ns: string, spec: PodSpec, l: Link)
    ensures l in OwnLinks(ns, spec) <==>
            || (spec.nodeName != "" && l == NodeLink(spec.nodeName))
            || (spec.serviceAccount != "" && l == AccountLink(ns, spec.serviceAccount))
  {
  }

  lemma PullSecretsMean(ns: string, names: seq<string>, l: Link)
    ensures l in Concat(names, PullSecretsIn(ns)) <==> exists name :: name in names && l == PullSecretLink(ns, name)
  {
    InConcat(names, PullSecretsIn(ns), l);
  }

  lemma NotInContainers(ns: string, spec: PodSpec, l: Link)
    requires l.rel !in {UsesConfigMap, UsesSecret}
    ensures l in Links(ns, spec) <==>
            || l in OwnLinks(ns, spec) || l in Concat(spec.pullSecrets, PullSecretsIn(ns))
            || l in Concat(spec.volumes, VolumesIn(ns, spec.serviceAccount))
  {
    ContainersOnlyName(ns, spec.containers);
    ContainersOnlyName(ns, spec.initContainers);
  }

  predicate ProjectsToken(spec: PodSpec) {
    exists v, p :: v in spec.volumes && p in v.projected && p.token
  }

  /** Everything else a spec links to: the node it is assigned to, its service
      account, which also a projected token stands for, the secrets it pulls images
      with and the claims it mounts. */
  lemma OtherLinksExactly(ns: string, spec: PodSpec, l: Link)
    requires l.rel !in {UsesConfigMap, UsesSecret}
    ensures l in Links(ns, spec) <==>
            || (spec.nodeName != "" && l == Link(ScheduledOn, Ref("v1", "Node", "", spec.nodeName, "")))
            || ((spec.serviceAccount != "" || ProjectsToken(spec))
                && l == Link(UsesServiceAccount, Ref("v1", "ServiceAccount", ns, spec.serviceAccount, "")))
            || (exists name :: name in spec.pullSecrets
                               && l == Link(UsesImagePullSecret, Ref("v1", "Secret", ns, name, "")))
            || (exists v :: v in spec.volumes && v.claim.Some?
                            && l == Link(UsesPVC, Ref("v1", "PersistentVolumeClaim", ns, v.claim.value, "")))
  {
    NotInContainers(ns, spec, l);
    OwnLinksMean(ns, spec, l);
    PullSecretsMean(ns, spec.pullSecrets, l);
    VolumesLinksExactly(ns, spec.serviceAccount, spec.volumes, l);
  }
}
