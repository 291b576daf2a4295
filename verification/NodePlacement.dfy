/**
 Where the two node-agent DaemonSets may run.

 With GPU monitoring restricted by a node selector or an affinity, the operator runs a GPU
 DaemonSet on the selected nodes and a normal one, carrying the negated restriction, elsewhere.
 The affinity of the custom resource is a shared object: the GPU pass writes through it and the
 normal pass reads what was written.
 */
module NodePlacement {
  import opened Maybe
  import opened Enumeration
  import opened NodeSelection

  // ------------------------------------------------------- the shared objects

  class NodeSelector {
    var terms: seq<Term>

    constructor (terms: seq<Term>)
      ensures this.terms == terms
    {
      this.terms := terms;
    }
  }

  class NodeAffinity {
    var required: NodeSelector?

    constructor ()
      ensures required == null
    {
      required := null;
    }
  }

  class Affinity {
    var nodeAffinity: NodeAffinity?
    const podRules: string

    constructor ()
      ensures nodeAffinity == null && podRules == ""
    {
      nodeAffinity := null;
      podRules := "";
    }
  }

  /** The objects the operator reaches from an affinity pointer. */
  ghost function Reach(a: Affinity?): set<object>
    reads a, if a != null then {a.nodeAffinity} else {}
  {
    if a == null then {}
    else if a.nodeAffinity == null then {a}
    else if a.nodeAffinity.required == null then {a, a.nodeAffinity}
    else {a, a.nodeAffinity, a.nodeAffinity.required}
  }

  /** The required node-selector terms: `None` when some pointer on the way is nil. */
  function RequiredTerms(a: Affinity?): Option<seq<Term>>
    reads a
    reads if a != null then {a.nodeAffinity} else {}
    reads if a != null && a.nodeAffinity != null then {a.nodeAffinity.required} else {}
  {
    if a == null || a.nodeAffinity == null || a.nodeAffinity.required == null then None
    else Some(a.nodeAffinity.required.terms)
  }

  /** Puts the terms into the pod's affinity, which may be the custom resource's own object. */
  method OverrideAffinity(affinity: Affinity?, added: seq<Term>) returns (result: Affinity)
    requires added != []
    modifies Reach(affinity)
    ensures if affinity == null then fresh(result) else result == affinity
    ensures fresh(Reach(result) - old(Reach(affinity)))
    ensures RequiredTerms(result) == Some(Distribute(old(RequiredTerms(affinity)).GetOr([]), added))
  {
    if affinity == null {
      result := new Affinity();
    } else {
      result := affinity;
    }
    if result.nodeAffinity == null {
      result.nodeAffinity := new NodeAffinity();
    }
    if result.nodeAffinity.required == null {
      result.nodeAffinity.required := new NodeSelector([]);
    }
    var existing := result.nodeAffinity.required.terms;
    assert existing == old(RequiredTerms(affinity)).GetOr([]);
    if |existing| == 0 {
      assert existing + added == added;
      result.nodeAffinity.required.terms := result.nodeAffinity.required.terms + added;
    } else {
      var newTerms := CrossTerms(existing, added);
      result.nodeAffinity.required.terms := newTerms;
    }
  }

  // ------------------------------------------------------- the anti-affinity

  function LabelNegation(k: string, v: string): Term {
    Term([Requirement(k, NotIn, [v])], [])
  }

  function LabelNegations(order: seq<string>, selector: map<string, string>): seq<Term>
    requires forall k | k in order :: k in selector
  {
    seq(|order|, i requires 0 <= i < |order| => LabelNegation(order[i], selector[order[i]]))
  }

  /** Only a single GPU affinity term is negated. */
  function AffinityNegations(gpuTerms: seq<Term>): seq<Term> {
    if |gpuTerms| == 1 then Negation(gpuTerms[0].matchExpressions) else []
  }

  function AntiTerms(order: seq<string>, selector: map<string, string>, gpuTerms: seq<Term>): seq<Term>
    requires forall k | k in order :: k in selector
  {
    LabelNegations(order, selector) + AffinityNegations(gpuTerms)
  }

  method AntiAffinityTerms(selector: map<string, string>, gpuTerms: seq<Term>)
      returns (terms: seq<Term>, order: seq<string>)
    ensures Enumerates(order, selector.Keys)
    ensures terms == AntiTerms(order, selector, gpuTerms)
  {
    terms := [];
    order := Iterate(selector.Keys);
    for i := 0 to |order|
      invariant terms == LabelNegations(order, selector)[..i]
    {
      var k := order[i];
      terms := terms + [Term([Requirement(k, NotIn, [selector[k]])], [])];
    }
    if |gpuTerms| == 1 {
      var negated := NegateNodeSelectorTerm(gpuTerms[0]);
      terms := terms + negated;
    }
  }

  lemma LabelNegationsMeaning(n: Node, order: seq<string>, selector: map<string, string>)
    requires Enumerates(order, selector.Keys)
    ensures Matches(n, LabelNegations(order, selector)) <==> !HasLabels(n, selector)
    ensures forall t | t in LabelNegations(order, selector) :: Negatable(t)
  {
    var terms := LabelNegations(order, selector);
    forall i | 0 <= i < |order|
      ensures TermMatches(n, terms[i]) <==>
              !(order[i] in n.labels.values && n.labels.values[order[i]] == selector[order[i]])
    {
      var req := Requirement(order[i], NotIn, [selector[order[i]]]);
      assert terms[i].matchExpressions == [req] && req in [req];
      assert Holds(n.labels, req) <==> TermMatches(n, terms[i]);
    }
    if !HasLabels(n, selector) {
      var k :| k in selector && !(k in n.labels.values && n.labels.values[k] == selector[k]);
      var i :| 0 <= i < |order| && order[i] == k;
      assert terms[i] in terms;
    }
  }

  // ------------------------------------------------------------ both pod specs

  datatype Placement = Placement(nodeSelector: map<string, string>, required: Option<seq<Term>>)

  predicate Eligible(n: Node, p: Placement) {
    && HasLabels(n, p.nodeSelector)
    && (p.required.Some? ==> Matches(n, p.required.value))
  }

  /**
   What the two passes read: the node agent's own selector, whether it has an affinity object, the
   terms required by it, and the GPU restriction (`gpuSelector` is nil-able, and a nil one does not
   override the own selector).
   */
  datatype Request = Request(ownSelector: map<string, string>, shared: bool, ownTerms: Option<seq<Term>>,
                             gpuSelector: Option<map<string, string>>, gpuTerms: seq<Term>)
  {
    function Own(): Placement {
      Placement(ownSelector, ownTerms)
    }

    function Labels(): map<string, string> {
      gpuSelector.GetOr(map[])
    }

    /** The GPU terms reach the normal pass through the shared affinity object. */
    predicate Interferes() {
      shared && gpuTerms != []
    }

    function GpuRequired(): Option<seq<Term>> {
      if gpuTerms == [] then ownTerms else Some(Distribute(ownTerms.GetOr([]), gpuTerms))
    }

    function Gpu(): Placement {
      Placement(gpuSelector.GetOr(ownSelector), GpuRequired())
    }

    function Seen(): Option<seq<Term>> {
      if Interferes() then GpuRequired() else ownTerms
    }

    function Normal(order: seq<string>): Placement
      requires forall k | k in order :: k in Labels()
    {
      var anti := AntiTerms(order, Labels(), gpuTerms);
      Placement(ownSelector, if anti == [] then Seen() else Some(Distribute(Seen().GetOr([]), anti)))
    }

    /** The restriction can be negated exactly: at most one affinity term, made of set operators only. */
    predicate Coverable() {
      && |gpuTerms| <= 1
      && (forall t | t in gpuTerms :: Negatable(t))
      && (Labels() == map[] ==> gpuTerms != [])
    }

    predicate Selected(n: Node) {
      HasLabels(n, Labels()) && (gpuTerms != [] ==> Matches(n, gpuTerms))
    }
  }

  lemma AntiTermsMeaning(n: Node, order: seq<string>, r: Request)
    requires Enumerates(order, r.Labels().Keys)
    ensures var anti := AntiTerms(order, r.Labels(), r.gpuTerms);
            && (forall t | t in anti :: Negatable(t))
            && (Matches(n, anti) && HasLabels(n, r.Labels()) ==>
                  |r.gpuTerms| == 1 && !HoldsAll(n.labels, r.gpuTerms[0].matchExpressions))
            && (r.Coverable() ==> anti != [] && (Matches(n, anti) <==> !r.Selected(n)))
  {
    LabelNegationsMeaning(n, order, r.Labels());
    MatchesConcat(n, LabelNegations(order, r.Labels()), AffinityNegations(r.gpuTerms));
    if |r.gpuTerms| == 1 {
      var t := r.gpuTerms[0];
      NegationMeaning(n, t.matchExpressions);
      NegationWellFormed(t.matchExpressions);
      assert Matches(n, r.gpuTerms) <==> TermMatches(n, t);
      if r.Coverable() {
        NegationExact(n, t);
        assert t in r.gpuTerms;
        assert t.matchExpressions[0] in t.matchExpressions;
      }
    }
    if r.Coverable() && r.Labels() != map[] {
      var k :| k in r.Labels();
      assert k in order;
    }
  }

  /** A distributed list matches only nodes that meet the expressions of some added term. */
  lemma DistributeImpliesAdded(n: Node, existing: seq<Term>, added: seq<Term>)
    requires Matches(n, Distribute(existing, added))
    ensures exists a | a in added :: HoldsAll(n.labels, a.matchExpressions)
  {
    if existing == [] {
      var a :| a in added && TermMatches(n, a);
    } else {
      CrossImpliesAdded(n, existing, added);
    }
  }

  /** The normal DaemonSet only runs where some anti-affinity term matches, whatever it is distributed over. */
  lemma NormalMeetsAnti(n: Node, r: Request, order: seq<string>)
    requires Enumerates(order, r.Labels().Keys)
    requires AntiTerms(order, r.Labels(), r.gpuTerms) != []
    requires Eligible(n, r.Normal(order))
    ensures Matches(n, AntiTerms(order, r.Labels(), r.gpuTerms))
  {
    hide HoldsAll, HasLabels;
    var anti := AntiTerms(order, r.Labels(), r.gpuTerms);
    DistributeImpliesAdded(n, r.Seen().GetOr([]), anti);
    var a :| a in anti && HoldsAll(n.labels, a.matchExpressions);
    AntiTermsMeaning(n, order, r);
    NegatableMatches(n, a);
  }

  lemma NegatableMatches(n: Node, t: Term)
    requires Negatable(t) && HoldsAll(n.labels, t.matchExpressions)
    ensures TermMatches(n, t)
  {}

  lemma GpuMeetsTerms(n: Node, r: Request)
    requires Eligible(n, r.Gpu())
    ensures HasLabels(n, r.Labels())
    ensures |r.gpuTerms| == 1 ==> HoldsAll(n.labels, r.gpuTerms[0].matchExpressions)
  {
    hide HoldsAll, Matches, Distribute;
    if |r.gpuTerms| == 1 {
      DistributeImpliesAdded(n, r.ownTerms.GetOr([]), r.gpuTerms);
    }
  }

  /**
   For every request, however many GPU terms it has, with fields or uninterpreted operators, and with
   the affinity object written by the first pass and read by the second: no node is eligible for both
   DaemonSets as soon as some anti-affinity term was generated.
   */
  lemma Disjoint(n: Node, r: Request, order: seq<string>)
    requires Enumerates(order, r.Labels().Keys)
    requires AntiTerms(order, r.Labels(), r.gpuTerms) != []
    ensures !(Eligible(n, r.Gpu()) && Eligible(n, r.Normal(order)))
  {
    if Eligible(n, r.Gpu()) && Eligible(n, r.Normal(order)) {
      NormalMeetsAnti(n, r, order);
      GpuMeetsTerms(n, r);
      AntiTermsMeaning(n, order, r);
      assert false;
    }
  }

  /** Without an anti-affinity term the two overlap on every GPU node the node agent's own rules admit. */
  lemma OverlapWithoutAntiTerms(n: Node, r: Request, order: seq<string>)
    requires Enumerates(order, r.Labels().Keys)
    requires AntiTerms(order, r.Labels(), r.gpuTerms) == []
    requires Eligible(n, r.Own()) && Eligible(n, r.Gpu())
    ensures Eligible(n, r.Normal(order))
  {}

  /** What the GPU terms ask of a node: their fields are lost once they are distributed over own terms. */
  predicate Reached(n: Node, r: Request) {
    if r.ownTerms.None? then Matches(n, r.gpuTerms)
    else exists a | a in r.gpuTerms :: HoldsAll(n.labels, a.matchExpressions)
  }

  /** Over field-free, non-empty terms that is matching one of them, whatever the operators. */
  lemma ReachedPlain(n: Node, r: Request)
    requires forall t | t in r.gpuTerms :: t.matchExpressions != [] && t.matchFields == []
    ensures Reached(n, r) <==> Matches(n, r.gpuTerms)
  {
    forall t | t in r.gpuTerms ensures TermMatches(n, t) <==> HoldsAll(n.labels, t.matchExpressions) {}
  }

  /** Over terms one of which the node matches, crossing asks for the expressions of an added term. */
  lemma CrossOverMatching(n: Node, users: seq<Term>, added: seq<Term>)
    requires Matches(n, users)
    ensures Matches(n, Cross(users, added)) <==> exists a | a in added :: HoldsAll(n.labels, a.matchExpressions)
  {
    if Matches(n, Cross(users, added)) {
      CrossImpliesAdded(n, users, added);
    }
    if a :| a in added && HoldsAll(n.labels, a.matchExpressions) {
      var u :| u in users && TermMatches(n, u);
      CrossMembers(users, added);
      assert TermMatches(n, Conjoin(u, a));
    }
  }

  lemma GpuRequirement(n: Node, r: Request)
    requires Eligible(n, r.Own()) && r.gpuTerms != []
    ensures Matches(n, Distribute(r.ownTerms.GetOr([]), r.gpuTerms)) <==> Reached(n, r)
  {
    if r.ownTerms.Some? {
      CrossOverMatching(n, r.ownTerms.value, r.gpuTerms);
    }
  }

  /** Which nodes the GPU DaemonSet gets, among those the node agent's own rules admit: for every request. */
  lemma GpuEligibility(n: Node, r: Request)
    requires Eligible(n, r.Own())
    ensures Eligible(n, r.Gpu()) <==> HasLabels(n, r.Labels()) && (r.gpuTerms != [] ==> Reached(n, r))
  {
    if r.gpuTerms != [] {
      GpuRequirement(n, r);
    }
  }

  /** The shared affinity object holds a term that matches nothing but lets anything through once distributed. */
  predicate SharesEmptyTerm(r: Request) {
    r.Interferes() && exists u | u in r.Seen().GetOr([]) :: !NonEmpty(u)
  }

  lemma SeenNonEmpty(r: Request)
    requires r.Interferes()
    ensures r.Seen().Some? && r.Seen().value != []
  {
    var existing := r.ownTerms.GetOr([]);
    if existing != [] {
      CrossMembers(existing, r.gpuTerms);
      assert existing[0] in existing && r.gpuTerms[0] in r.gpuTerms;
    }
  }

  lemma NormalUnshared(n: Node, r: Request, order: seq<string>)
    requires Enumerates(order, r.Labels().Keys) && Eligible(n, r.Own()) && !r.Interferes()
    ensures var anti := AntiTerms(order, r.Labels(), r.gpuTerms);
            Eligible(n, r.Normal(order)) <==> anti == [] || Matches(n, anti)
  {
    var anti := AntiTerms(order, r.Labels(), r.gpuTerms);
    AntiTermsMeaning(n, order, r);
    if r.ownTerms.Some? {
      CrossWithEmptyTerms(n, r.ownTerms.value, anti);
    }
  }

  lemma NormalShared(n: Node, r: Request, order: seq<string>)
    requires Enumerates(order, r.Labels().Keys) && Eligible(n, r.Own()) && r.Interferes()
    ensures var anti := AntiTerms(order, r.Labels(), r.gpuTerms);
            Eligible(n, r.Normal(order)) <==>
            if anti == [] then Reached(n, r) else Matches(n, anti) && (Reached(n, r) || SharesEmptyTerm(r))
  {
    var anti := AntiTerms(order, r.Labels(), r.gpuTerms);
    AntiTermsMeaning(n, order, r);
    GpuRequirement(n, r);
    SeenNonEmpty(r);
    CrossWithEmptyTerms(n, r.Seen().value, anti);
  }

  /**
   Which nodes the normal DaemonSet gets, among those the node agent's own rules admit: for every request, with any
   number of GPU terms and any operators.
   */
  lemma NormalEligibility(n: Node, r: Request, order: seq<string>)
    requires Enumerates(order, r.Labels().Keys) && Eligible(n, r.Own())
    ensures var anti := AntiTerms(order, r.Labels(), r.gpuTerms);
            Eligible(n, r.Normal(order)) <==>
            && (anti == [] || Matches(n, anti))
            && (r.Interferes() ==> Reached(n, r) || (anti != [] && SharesEmptyTerm(r)))
  {
    if r.Interferes() {
      NormalShared(n, r, order);
    } else {
      NormalUnshared(n, r, order);
    }
  }

  /**
   Several GPU terms are not negated: beside a GPU label, and without sharing, the nodes that have the label but
   reach none of the terms get neither DaemonSet, and every other admitted node gets exactly one.
   */
  lemma SeveralTermsLeaveGap(n: Node, r: Request, order: seq<string>)
    requires Enumerates(order, r.Labels().Keys) && Eligible(n, r.Own())
    requires |r.gpuTerms| >= 2 && r.Labels() != map[] && !r.Interferes()
    ensures !(Eligible(n, r.Gpu()) && Eligible(n, r.Normal(order)))
    ensures Eligible(n, r.Gpu()) || Eligible(n, r.Normal(order)) <==> !HasLabels(n, r.Labels()) || Reached(n, r)
  {
    GpuEligibility(n, r);
    NormalEligibility(n, r, order);
    LabelNegationsMeaning(n, order, r.Labels());
    AntiTermsEmpty(r, order);
    var anti := AntiTerms(order, r.Labels(), r.gpuTerms);
    assert anti == LabelNegations(order, r.Labels());
  }

  lemma NoEmptyTermShared(r: Request)
    requires forall t | t in r.gpuTerms :: t.matchExpressions != []
    ensures !SharesEmptyTerm(r)
  {
    if r.Interferes() {
      var existing := r.ownTerms.GetOr([]);
      CrossMembers(existing, r.gpuTerms);
      forall u | u in Distribute(existing, r.gpuTerms) ensures NonEmpty(u) {
        if existing != [] {
          var e, a :| e in existing && a in r.gpuTerms && u == Conjoin(e, a);
        }
      }
    }
  }

  /**
   A negatable restriction splits the admitted nodes between the two DaemonSets, with one exact
   exception: when the affinity object is shared with GPU terms in it, the nodes that fail those terms
   are left to neither.
   */
  lemma Partition(n: Node, r: Request, order: seq<string>)
    requires r.Coverable() && Enumerates(order, r.Labels().Keys)
    requires Eligible(n, r.Own())
    ensures Eligible(n, r.Gpu()) != Eligible(n, r.Normal(order)) <==>
            !r.Interferes() || Matches(n, r.gpuTerms)
  {
    ReachedPlain(n, r);
    NoEmptyTermShared(r);
    AntiTermsMeaning(n, order, r);
    GpuEligibility(n, r);
    NormalEligibility(n, r, order);
  }

  // ----------------------------------------------- eligibility of every node, written out

  /** The node meets the requirements of a term, were the term allowed to be empty. */
  predicate Meets(n: Node, t: Term) {
    HoldsAll(n.labels, t.matchExpressions) && HoldsAll(n.fields, t.matchFields)
  }

  lemma CrossExactly(n: Node, users: seq<Term>, added: seq<Term>)
    ensures Matches(n, Cross(users, added)) <==>
            exists u, a :: && u in users && a in added && (NonEmpty(u) || a.matchExpressions != [])
                           && Meets(n, u) && HoldsAll(n.labels, a.matchExpressions)
  {
    CrossMembers(users, added);
    if Matches(n, Cross(users, added)) {
      var t :| t in Cross(users, added) && TermMatches(n, t);
      var u, a :| u in users && a in added && t == Conjoin(u, a);
      HoldsFewer(n.labels, t.matchExpressions, u.matchExpressions);
      HoldsFewer(n.labels, t.matchExpressions, a.matchExpressions);
      assert Meets(n, u) && (NonEmpty(u) || a.matchExpressions != []);
    }
    if u, a :| && u in users && a in added && (NonEmpty(u) || a.matchExpressions != [])
               && Meets(n, u) && HoldsAll(n.labels, a.matchExpressions) {
      assert TermMatches(n, Conjoin(u, a));
    }
  }

  /** What own terms and GPU terms ask of a node together. */
  predicate TermsMet(n: Node, own: Option<seq<Term>>, gpu: seq<Term>) {
    if gpu == [] then own.Some? ==> Matches(n, own.value)
    else if own.GetOr([]) == [] then Matches(n, gpu)
    else exists u, g :: && u in own.value && g in gpu && (NonEmpty(u) || g.matchExpressions != [])
                        && Meets(n, u) && HoldsAll(n.labels, g.matchExpressions)
  }

  lemma RequiredExactly(n: Node, r: Request)
    ensures (r.GpuRequired().Some? ==> Matches(n, r.GpuRequired().value)) <==> TermsMet(n, r.ownTerms, r.gpuTerms)
  {
    if r.gpuTerms != [] && r.ownTerms.GetOr([]) != [] {
      CrossExactly(n, r.ownTerms.value, r.gpuTerms);
    }
  }

  /**
   Where the GPU DaemonSet may run, for every node and every request: on the nodes with all labels of the GPU
   selector, if one is given, which then replaces the own one, and that meet the terms.
   */
  lemma GpuEligibleExactly(n: Node, r: Request)
    ensures Eligible(n, r.Gpu()) <==>
            && HasLabels(n, if r.gpuSelector.Some? then r.gpuSelector.value else r.ownSelector)
            && TermsMet(n, r.ownTerms, r.gpuTerms)
  {
    RequiredExactly(n, r);
  }

  /** A label of the GPU selector is missing or different, or a negatable requirement of the only GPU term fails. */
  predicate Excluded(n: Node, r: Request) {
    || (r.gpuSelector.Some? && exists k | k in r.gpuSelector.value ::
          !(k in n.labels.values && n.labels.values[k] == r.gpuSelector.value[k]))
    || (|r.gpuTerms| == 1 && exists q | q in r.gpuTerms[0].matchExpressions :: !q.op.Unmanaged? && !Holds(n.labels, q))
  }

  /** There is something to negate. */
  predicate Negated(r: Request) {
    || (r.gpuSelector.Some? && r.gpuSelector.value != map[])
    || (|r.gpuTerms| == 1 && exists q | q in r.gpuTerms[0].matchExpressions :: !q.op.Unmanaged?)
  }

  lemma AntiTermsExactly(n: Node, r: Request, order: seq<string>)
    requires Enumerates(order, r.Labels().Keys)
    ensures var anti := AntiTerms(order, r.Labels(), r.gpuTerms);
            (anti != [] <==> Negated(r)) && (Matches(n, anti) <==> Excluded(n, r))
  {
    AntiTermsEmpty(r, order);
    LabelNegationsMeaning(n, order, r.Labels());
    MatchesConcat(n, LabelNegations(order, r.Labels()), AffinityNegations(r.gpuTerms));
    if |r.gpuTerms| == 1 {
      NegationMeaning(n, r.gpuTerms[0].matchExpressions);
    }
  }

  /** What a shared affinity object with GPU terms in it leaves for the anti-affinity terms to join. */
  predicate SharedTermsMet(n: Node, own: Option<seq<Term>>, gpu: seq<Term>) {
    if own.GetOr([]) == [] then exists g | g in gpu :: Meets(n, g)
    else exists u, g :: u in own.value && g in gpu && Meets(n, u) && HoldsAll(n.labels, g.matchExpressions)
  }

  /** What the anti-affinity terms join, as it bears on a node. */
  predicate JoinedTermsMet(n: Node, r: Request) {
    if r.shared && r.gpuTerms != [] then SharedTermsMet(n, r.ownTerms, r.gpuTerms)
    else r.ownTerms.GetOr([]) == [] || exists u | u in r.ownTerms.value :: Meets(n, u)
  }

  lemma CrossWithNegatable(n: Node, users: seq<Term>, anti: seq<Term>)
    requires forall a | a in anti :: Negatable(a)
    ensures Matches(n, Cross(users, anti)) <==> Matches(n, anti) && exists u | u in users :: Meets(n, u)
  {
    CrossExactly(n, users, anti);
    assert forall a | a in anti :: TermMatches(n, a) <==> HoldsAll(n.labels, a.matchExpressions);
    if Matches(n, anti) && exists u | u in users :: Meets(n, u) {
      var u :| u in users && Meets(n, u);
      var a :| a in anti && TermMatches(n, a);
      assert a.matchExpressions != [];
    }
  }

  lemma SharedSeen(n: Node, r: Request)
    requires r.Interferes()
    ensures (exists u | u in r.Seen().GetOr([]) :: Meets(n, u)) <==> SharedTermsMet(n, r.ownTerms, r.gpuTerms)
  {
    var existing := r.ownTerms.GetOr([]);
    if existing != [] {
      CrossMembers(existing, r.gpuTerms);
      if u :| u in Cross(existing, r.gpuTerms) && Meets(n, u) {
        var e, g :| e in existing && g in r.gpuTerms && u == Conjoin(e, g);
        HoldsFewer(n.labels, u.matchExpressions, e.matchExpressions);
        HoldsFewer(n.labels, u.matchExpressions, g.matchExpressions);
        assert Meets(n, e);
      }
      if e, g :| e in existing && g in r.gpuTerms && Meets(n, e) && HoldsAll(n.labels, g.matchExpressions) {
        assert Meets(n, Conjoin(e, g));
      }
    }
  }

  lemma NormalTermsExactly(n: Node, r: Request, order: seq<string>)
    requires Enumerates(order, r.Labels().Keys) && Negated(r)
    ensures (r.Normal(order).required.Some? ==> Matches(n, r.Normal(order).required.value)) <==>
            Excluded(n, r) && JoinedTermsMet(n, r)
  {
    hide HoldsAll, Excluded, Negated;
    var anti, existing := AntiTerms(order, r.Labels(), r.gpuTerms), r.Seen().GetOr([]);
    AntiTermsExactly(n, r, order);
    AntiTermsMeaning(n, order, r);
    if r.Interferes() {
      SeenNonEmpty(r);
      SharedSeen(n, r);
    }
    if existing != [] {
      CrossWithNegatable(n, existing, anti);
    }
  }

  /**
   Where the normal DaemonSet may run, for every node and every request: on the nodes with all own labels that, when
   there is something to negate, are excluded by the negation and meet the terms it joins, and otherwise meet the
   own terms, together with the GPU terms if the affinity object is shared.
   */
  lemma NormalEligibleExactly(n: Node, r: Request, order: seq<string>)
    requires Enumerates(order, r.Labels().Keys)
    ensures Eligible(n, r.Normal(order)) <==>
            && HasLabels(n, r.ownSelector)
            && if Negated(r) then Excluded(n, r) && JoinedTermsMet(n, r)
               else TermsMet(n, r.ownTerms, if r.shared then r.gpuTerms else [])
  {
    AntiTermsExactly(n, r, order);
    if Negated(r) {
      NormalTermsExactly(n, r, order);
    } else {
      RequiredExactly(n, r);
    }
  }

  /** What matches a list distributed over the shared terms meets a GPU term's expressions. */
  lemma SharedMeetsTerms(n: Node, r: Request, anti: seq<Term>)
    requires r.Interferes() && Matches(n, Cross(r.Seen().value, anti))
    ensures exists g | g in r.gpuTerms :: HoldsAll(n.labels, g.matchExpressions)
  {
    hide HoldsAll, Cross, Matches;
    CrossParts(n, r.Seen().value, anti);
    var u :| u in r.Seen().value && HoldsAll(n.labels, u.matchExpressions);
    SeenContains(r, u);
    var g :| g in r.gpuTerms && forall q | q in g.matchExpressions :: q in u.matchExpressions;
    HoldsFewer(n.labels, u.matchExpressions, g.matchExpressions);
  }

  lemma CrossParts(n: Node, users: seq<Term>, added: seq<Term>)
    requires Matches(n, Cross(users, added))
    ensures exists u | u in users :: HoldsAll(n.labels, u.matchExpressions)
  {
    CrossMembers(users, added);
    var t :| t in Cross(users, added) && TermMatches(n, t);
    var u, a :| u in users && a in added && t == Conjoin(u, a);
    HoldsFewer(n.labels, t.matchExpressions, u.matchExpressions);
  }

  lemma HoldsFewer(a: Attributes, rs: seq<Requirement>, fewer: seq<Requirement>)
    requires HoldsAll(a, rs) && forall q | q in fewer :: q in rs
    ensures HoldsAll(a, fewer)
  {}

  lemma SeenContains(r: Request, u: Term)
    requires r.Interferes() && r.Seen().Some? && u in r.Seen().value
    ensures exists g | g in r.gpuTerms :: forall q | q in g.matchExpressions :: q in u.matchExpressions
  {
    var existing := r.ownTerms.GetOr([]);
    if existing != [] {
      CrossMembers(existing, r.gpuTerms);
      var e, g :| e in existing && g in r.gpuTerms && u == Conjoin(e, g);
      assert forall q | q in g.matchExpressions :: q in u.matchExpressions;
    }
  }

  /** With sharing and no label restriction the normal DaemonSet runs nowhere at all. */
  lemma SharingEmptiesNormal(n: Node, r: Request, order: seq<string>)
    requires r.Coverable() && Enumerates(order, r.Labels().Keys)
    requires r.Interferes() && r.Labels() == map[]
    ensures !Eligible(n, r.Normal(order))
  {
    hide HoldsAll, Cross, Matches, AntiTerms;
    var anti := AntiTerms(order, r.Labels(), r.gpuTerms);
    AntiTermsMeaning(n, order, r);
    if Eligible(n, r.Normal(order)) {
      NormalMeetsAnti(n, r, order);
      SeenNonEmpty(r);
      SharedMeetsTerms(n, r, anti);
      OnlyTermSelects(n, r);
    }
  }

  lemma OnlyTermSelects(n: Node, r: Request)
    requires r.Coverable() && r.Labels() == map[]
    requires exists g | g in r.gpuTerms :: HoldsAll(n.labels, g.matchExpressions)
    ensures r.Selected(n)
  {
    var g :| g in r.gpuTerms && HoldsAll(n.labels, g.matchExpressions);
    NegatableMatches(n, g);
  }

  /** Exactly the requests that leave the normal DaemonSet without any anti-affinity term. */
  lemma AntiTermsEmpty(r: Request, order: seq<string>)
    requires Enumerates(order, r.Labels().Keys)
    ensures AntiTerms(order, r.Labels(), r.gpuTerms) == [] <==>
            && r.Labels() == map[]
            && (|r.gpuTerms| == 1 ==> forall q | q in r.gpuTerms[0].matchExpressions :: q.op.Unmanaged?)
  {
    if |r.gpuTerms| == 1 {
      NegationWellFormed(r.gpuTerms[0].matchExpressions);
    }
    if order != [] {
      assert order[0] in order;
    }
    if r.Labels() != map[] {
      var k :| k in r.Labels();
      assert k in order;
    }
  }

  // --------------------------------------------------------- the order of a Go map

  lemma SameMembersMatch(n: Node, a: seq<Term>, b: seq<Term>)
    requires forall t :: t in a <==> t in b
    ensures Matches(n, a) <==> Matches(n, b)
  {}

  lemma AntiTermMembers(r: Request, order: seq<string>, t: Term)
    requires Enumerates(order, r.Labels().Keys)
    ensures t in AntiTerms(order, r.Labels(), r.gpuTerms) <==>
            || t in AffinityNegations(r.gpuTerms)
            || exists k | k in r.Labels() :: t == LabelNegation(k, r.Labels()[k])
  {
    var terms := LabelNegations(order, r.Labels());
    assert t in terms ==> exists k | k in r.Labels() :: t == LabelNegation(k, r.Labels()[k]);
    if k :| k in r.Labels() && t == LabelNegation(k, r.Labels()[k]) {
      var i :| 0 <= i < |order| && order[i] == k;
      assert terms[i] == t;
    }
  }

  /** Which nodes the normal DaemonSet may run on does not depend on the order of the selector map. */
  lemma OrderIrrelevant(n: Node, r: Request, order: seq<string>, order': seq<string>)
    requires Enumerates(order, r.Labels().Keys) && Enumerates(order', r.Labels().Keys)
    ensures Eligible(n, r.Normal(order)) <==> Eligible(n, r.Normal(order'))
  {
    var anti, anti' := AntiTerms(order, r.Labels(), r.gpuTerms), AntiTerms(order', r.Labels(), r.gpuTerms);
    var existing := r.Seen().GetOr([]);
    forall t ensures t in anti <==> t in anti' {
      AntiTermMembers(r, order, t);
      AntiTermMembers(r, order', t);
    }
    AntiTermsEmpty(r, order);
    AntiTermsEmpty(r, order');
    CrossMembers(existing, anti);
    CrossMembers(existing, anti');
    forall t ensures t in Cross(existing, anti) <==> t in Cross(existing, anti') {}
    SameMembersMatch(n, anti, anti');
    SameMembersMatch(n, Cross(existing, anti), Cross(existing, anti'));
  }

  /**
   The stored term list does depend on it: with two or more GPU labels, swapping the first two keys visited
   yields another list, so an unchanged custom resource can still rewrite the DaemonSet.
   */
  lemma OrderIsStored(r: Request, order: seq<string>)
    requires Enumerates(order, r.Labels().Keys) && |order| >= 2
    ensures var swapped := [order[1], order[0]] + order[2..];
            Enumerates(swapped, r.Labels().Keys) && r.Normal(swapped) != r.Normal(order)
  {
    var swapped := [order[1], order[0]] + order[2..];
    assert order == [order[0], order[1]] + order[2..];
    assert Enumerates(swapped, r.Labels().Keys);
    var anti, anti' := AntiTerms(order, r.Labels(), r.gpuTerms), AntiTerms(swapped, r.Labels(), r.gpuTerms);
    var existing := r.Seen().GetOr([]);
    assert anti[0].matchExpressions[0].key == order[0] && anti'[0].matchExpressions[0].key == order[1];
    if existing != [] {
      var u := existing[0];
      assert Cross(existing, anti)[0] == Conjoin(u, anti[0]) && Cross(existing, anti')[0] == Conjoin(u, anti'[0]);
      var k := |u.matchExpressions|;
      assert Conjoin(u, anti[0]).matchExpressions[k].key == order[0];
      assert Conjoin(u, anti'[0]).matchExpressions[k].key == order[1];
    }
  }

  /** With at most one GPU label there is only one order. */
  lemma SingleOrder(r: Request, order: seq<string>, order': seq<string>)
    requires Enumerates(order, r.Labels().Keys) && Enumerates(order', r.Labels().Keys)
    requires |r.Labels()| <= 1
    ensures order == order'
  {
    EnumerationSize(order, r.Labels().Keys);
    EnumerationSize(order', r.Labels().Keys);
    if |order| == 1 {
      assert order[0] in order;
    }
  }
}
