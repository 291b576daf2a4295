/**
 Merging the desired containers of a DaemonSet into the live ones: live order is kept, containers
 added by users stay, operator-managed ones that are no longer desired go, and new ones are appended
 in the arbitrary order of a Go map.
 */
module ContainerMerge {
  import opened Enumeration

  datatype Resources = Resources(limits: map<string, string>, requests: map<string, string>)

  predicate ResourcesEmpty(r: Resources) {
    r.limits == map[] && r.requests == map[]
  }

  /** `rest` stands for the fields the merge never looks at. */
  datatype Container = Container(name: string, resources: Resources, terminationPath: string,
                                 terminationPolicy: string, pullPolicy: string, rest: string)

  const NODE_AGENT := "whatap-node-agent"
  const NODE_HELPER := "whatap-node-helper"
  const DCGM_EXPORTER := "dcgm-exporter"
  const DCGM_HOSTENGINE := "dcgm-hostengine"

  predicate Managed(name: string) {
    name == DCGM_EXPORTER || name == DCGM_HOSTENGINE || name == NODE_AGENT
  }

  function WithDefaults(c: Container): Container {
    c.(terminationPath := if c.terminationPath == "" then "/dev/termination-log" else c.terminationPath,
       terminationPolicy := if c.terminationPolicy == "" then "File" else c.terminationPolicy,
       pullPolicy := if c.pullPolicy == "" then "IfNotPresent" else c.pullPolicy)
  }

  function Names(cs: seq<Container>): seq<string> {
    seq(|cs|, i requires 0 <= i < |cs| => cs[i].name)
  }

  predicate UniqueNames(cs: seq<Container>) {
    forall i, j | 0 <= i < j < |cs| :: cs[i].name != cs[j].name
  }

  // ------------------------------------------------------------ specification

  /** The desired containers by name, defaults applied. */
  function Wanted(desired: seq<Container>): (m: map<string, Container>)
    ensures forall k | k in m :: m[k].name == k
  {
    if desired == [] then map[]
    else Wanted(desired[..|desired| - 1])[desired[|desired| - 1].name := WithDefaults(desired[|desired| - 1])]
  }

  /** The node agent keeps its live resources unless the custom resource sets some. */
  function Refresh(wanted: Container, live: Container, userSet: bool): Container {
    if wanted.name == NODE_AGENT && !userSet then wanted.(resources := live.resources) else wanted
  }

  /** What the walk over the live containers keeps, taking each wanted name at most once. */
  function Kept(existing: seq<Container>, wanted: map<string, Container>, userSet: bool): seq<Container> {
    if existing == [] then []
    else
      var c := existing[0];
      if c.name in wanted then [Refresh(wanted[c.name], c, userSet)] + Kept(existing[1..], wanted - {c.name}, userSet)
      else if Managed(c.name) then Kept(existing[1..], wanted, userSet)
      else [c] + Kept(existing[1..], wanted, userSet)
  }

  /** The wanted containers no live one took. */
  function Left(existing: seq<Container>, wanted: map<string, Container>): map<string, Container> {
    if existing == [] then wanted else Left(existing[1..], wanted - {existing[0].name})
  }

  function Appended(order: seq<string>, wanted: map<string, Container>): seq<Container>
    requires forall n | n in order :: n in wanted
  {
    seq(|order|, i requires 0 <= i < |order| => wanted[order[i]])
  }

  /** `final` is a possible outcome: the kept containers, then the missing ones in the order `order`. */
  predicate Merged(existing: seq<Container>, desired: seq<Container>, userSet: bool, order: seq<string>,
                   final: seq<Container>) {
    var wanted := Wanted(desired);
    && Enumerates(order, Left(existing, wanted).Keys)
    && (forall n | n in order :: n in wanted)
    && final == Kept(existing, wanted, userSet) + Appended(order, wanted)
  }

  // ---------------------------------------------------------------- the step

  method IndexDesired(desired: seq<Container>) returns (newContainers: map<string, Container>)
    ensures newContainers == Wanted(desired)
  {
    newContainers := map[];
    for i := 0 to |desired|
      invariant newContainers == Wanted(desired[..i])
    {
      var c := WithDefaults(desired[i]);
      assert desired[..i + 1][..i] == desired[..i];
      newContainers := newContainers[c.name := c];
    }
    assert desired[..|desired|] == desired;
  }

  lemma WalkStep(existing: seq<Container>, i: nat, rest: map<string, Container>, userSet: bool)
    requires i < |existing|
    ensures var c := existing[i];
            && Left(existing[i..], rest) == Left(existing[i + 1..], rest - {c.name})
            && Kept(existing[i..], rest, userSet) ==
               if c.name in rest then
                 [Refresh(rest[c.name], c, userSet)] + Kept(existing[i + 1..], rest - {c.name}, userSet)
               else if Managed(c.name) then Kept(existing[i + 1..], rest, userSet)
               else [c] + Kept(existing[i + 1..], rest, userSet)
  {
    assert existing[i..][0] == existing[i] && existing[i..][1..] == existing[i + 1..];
  }

  lemma WalkEnd(existing: seq<Container>, rest: map<string, Container>, userSet: bool)
    ensures Left(existing[|existing|..], rest) == rest && Kept(existing[|existing|..], rest, userSet) == []
  {}

  method WalkExisting(existing: seq<Container>, wanted: map<string, Container>, userSetResources: bool)
      returns (final: seq<Container>, newContainers: map<string, Container>)
    requires forall k | k in wanted :: wanted[k].name == k
    ensures final == Kept(existing, wanted, userSetResources)
    ensures newContainers == Left(existing, wanted)
  {
    hide Kept, Left;
    final, newContainers := [], wanted;
    assert existing[0..] == existing;
    for i := 0 to |existing|
      invariant forall k | k in newContainers :: newContainers[k].name == k
      invariant Left(existing[i..], newContainers) == Left(existing, wanted)
      invariant final + Kept(existing[i..], newContainers, userSetResources) == Kept(existing, wanted, userSetResources)
    {
      var existingC := existing[i];
      WalkStep(existing, i, newContainers, userSetResources);
      if existingC.name in newContainers {
        var newC := newContainers[existingC.name];
        if newC.name == NODE_AGENT {
          if !userSetResources {
            newC := newC.(resources := existingC.resources);
          }
        }
        final := final + [newC];
        newContainers := newContainers - {existingC.name};
      } else {
        assert newContainers - {existingC.name} == newContainers;
        if existingC.name != "dcgm-exporter" && existingC.name != "dcgm-hostengine"
           && existingC.name != "whatap-node-agent" {
          final := final + [existingC];
        }
      }
    }
    WalkEnd(existing, newContainers, userSetResources);
  }

  method AppendRest(kept: seq<Container>, rest: map<string, Container>)
      returns (final: seq<Container>, order: seq<string>)
    ensures Enumerates(order, rest.Keys)
    ensures final == kept + Appended(order, rest)
  {
    order := Iterate(rest.Keys);
    final := kept;
    for i := 0 to |order|
      invariant final == kept + Appended(order, rest)[..i]
    {
      final := final + [rest[order[i]]];
    }
  }

  method MergeContainers(desired: seq<Container>, existing: seq<Container>, userSetResources: bool)
      returns (final: seq<Container>, order: seq<string>)
    ensures Merged(existing, desired, userSetResources, order, final)
    ensures UniqueNames(existing) ==> forall c | c in existing && c.name !in Names(desired) ::
              c in final <==> c.name != "dcgm-exporter" && c.name != "dcgm-hostengine" && c.name != "whatap-node-agent"
  {
    var wanted := IndexDesired(desired);
    var kept, rest := WalkExisting(existing, wanted, userSetResources);
    LeftMeaning(existing, wanted);
    final, order := AppendRest(kept, rest);
    assert Appended(order, rest) == Appended(order, wanted);
    if UniqueNames(existing) {
      forall c | c in existing && c.name !in Names(desired)
        ensures c in final <==>
                c.name != "dcgm-exporter" && c.name != "dcgm-hostengine" && c.name != "whatap-node-agent"
      {
        SidecarStays(existing, desired, userSetResources, order, final, c);
      }
    }
  }

  lemma {:induction false} LeftMeaning(existing: seq<Container>, wanted: map<string, Container>)
    ensures forall n :: n in Left(existing, wanted) <==> n in wanted && n !in Names(existing)
    ensures forall n | n in Left(existing, wanted) :: Left(existing, wanted)[n] == wanted[n]
  {
    if existing != [] {
      LeftMeaning(existing[1..], wanted - {existing[0].name});
      assert Names(existing) == [existing[0].name] + Names(existing[1..]);
    }
  }

  // ---------------------------------------------------- one step, as observed

  /** A name survives a step when it is wanted or not the operator's. */
  predicate Stays(name: string, wanted: map<string, Container>) {
    name in wanted || !Managed(name)
  }

  function Surviving(names: seq<string>, wanted: map<string, Container>): seq<string> {
    if names == [] then []
    else if Stays(names[0], wanted) then [names[0]] + Surviving(names[1..], wanted)
    else Surviving(names[1..], wanted)
  }

  /** The containers with a name in `names`, in order. */
  function Only(cs: seq<Container>, names: set<string>): seq<Container> {
    if cs == [] then []
    else if cs[0].name in names then [cs[0]] + Only(cs[1..], names)
    else Only(cs[1..], names)
  }

  lemma {:induction false} OnlyConcat(a: seq<Container>, b: seq<Container>, names: set<string>)
    ensures Only(a + b, names) == Only(a, names) + Only(b, names)
  {
    if a == [] {
      assert a + b == b;
    } else {
      assert (a + b)[1..] == a[1..] + b;
      OnlyConcat(a[1..], b, names);
    }
  }

  lemma {:induction false} OnlyMembers(cs: seq<Container>, names: set<string>, c: Container)
    requires c.name in names
    ensures c in Only(cs, names) <==> c in cs
  {
    if cs != [] {
      OnlyMembers(cs[1..], names, c);
      assert c in cs <==> c == cs[0] || c in cs[1..];
    }
  }

  lemma {:induction false} OnlyNone(cs: seq<Container>, names: set<string>)
    requires forall c | c in cs :: c.name !in names
    ensures Only(cs, names) == []
  {
    if cs != [] {
      OnlyNone(cs[1..], names);
    }
  }

  lemma {:induction false} WantedNames(desired: seq<Container>)
    ensures forall n :: n in Wanted(desired) <==> n in Names(desired)
  {
    if desired != [] {
      WantedNames(desired[..|desired| - 1]);
      assert Names(desired) == Names(desired[..|desired| - 1]) + [desired[|desired| - 1].name];
    }
  }

  lemma {:induction false} WantedContent(desired: seq<Container>, i: nat)
    requires UniqueNames(desired) && i < |desired|
    ensures desired[i].name in Wanted(desired)
    ensures Wanted(desired)[desired[i].name] == WithDefaults(desired[i])
  {
    if i < |desired| - 1 {
      WantedContent(desired[..|desired| - 1], i);
    }
  }

  /** With unique live names, removing a taken name from the map changes nothing later. */
  lemma {:induction false} KeptIgnoresTaken(existing: seq<Container>, wanted: map<string, Container>, userSet: bool,
                                            taken: string)
    requires taken !in Names(existing)
    ensures Kept(existing, wanted - {taken}, userSet) == Kept(existing, wanted, userSet)
  {
    if existing != [] {
      assert Names(existing)[0] == existing[0].name;
      assert Names(existing)[1..] == Names(existing[1..]);
      KeptIgnoresTaken(existing[1..], wanted, userSet, taken);
      KeptIgnoresTaken(existing[1..], wanted - {existing[0].name}, userSet, taken);
      assert wanted - {taken} - {existing[0].name} == wanted - {existing[0].name} - {taken};
    }
  }

  lemma {:induction false} KeptHead(existing: seq<Container>, wanted: map<string, Container>, userSet: bool)
    requires existing != [] && UniqueNames(existing)
    ensures var c := existing[0];
            Kept(existing, wanted, userSet) ==
            (if c.name in wanted then [Refresh(wanted[c.name], c, userSet)]
             else if Managed(c.name) then [] else [c]) + Kept(existing[1..], wanted, userSet)
  {
    KeptIgnoresTaken(existing[1..], wanted, userSet, existing[0].name);
  }

  /** The kept names are the surviving live names, in live order. */
  lemma {:induction false} KeptNames(existing: seq<Container>, wanted: map<string, Container>, userSet: bool)
    requires UniqueNames(existing)
    requires forall k | k in wanted :: wanted[k].name == k
    ensures Names(Kept(existing, wanted, userSet)) == Surviving(Names(existing), wanted)
  {
    if existing != [] {
      KeptHead(existing, wanted, userSet);
      KeptNames(existing[1..], wanted, userSet);
      assert Names(existing)[1..] == Names(existing[1..]);
    }
  }

  lemma {:induction false} SurvivingMeaning(names: seq<string>, wanted: map<string, Container>)
    ensures forall n :: n in Surviving(names, wanted) <==> n in names && Stays(n, wanted)
    ensures Distinct(names) ==> Distinct(Surviving(names, wanted))
    ensures (forall n | n in names :: Stays(n, wanted)) ==> Surviving(names, wanted) == names
  {
    if names != [] {
      SurvivingMeaning(names[1..], wanted);
      assert forall n :: n in names <==> n == names[0] || n in names[1..];
      if Distinct(names) && Stays(names[0], wanted) {
        assert forall i | 1 <= i < |names| :: names[i] != names[0];
      }
    }
  }

  lemma UniqueIsDistinct(cs: seq<Container>)
    ensures UniqueNames(cs) <==> Distinct(Names(cs))
  {
    if Distinct(Names(cs)) {
      forall i, j | 0 <= i < j < |cs| ensures cs[i].name != cs[j].name {
        assert Names(cs)[i] != Names(cs)[j];
      }
    }
  }

  lemma NamesConcat(a: seq<Container>, b: seq<Container>)
    ensures Names(a + b) == Names(a) + Names(b)
  {}

  lemma AppendedNames(order: seq<string>, wanted: map<string, Container>)
    requires forall n | n in order :: n in wanted
    requires forall k | k in wanted :: wanted[k].name == k
    ensures Names(Appended(order, wanted)) == order
  {}

  /** Names after a step: the surviving live ones in live order, then the missing wanted ones. */
  lemma MergedNames(existing: seq<Container>, desired: seq<Container>, userSet: bool, order: seq<string>,
                    final: seq<Container>)
    requires UniqueNames(existing) && Merged(existing, desired, userSet, order, final)
    ensures Names(final) == Surviving(Names(existing), Wanted(desired)) + order
    ensures UniqueNames(final)
    ensures forall n :: n in Names(final) <==>
                        n in Names(desired) || (n in Names(existing) && OfUser(n))
  {
    var wanted := Wanted(desired);
    KeptNames(existing, wanted, userSet);
    SurvivingMeaning(Names(existing), wanted);
    WantedNames(desired);
    LeftMeaning(existing, wanted);
    NamesConcat(Kept(existing, wanted, userSet), Appended(order, wanted));
    AppendedNames(order, wanted);
    UniqueIsDistinct(existing);
    DistinctConcat(Surviving(Names(existing), wanted), order);
    UniqueIsDistinct(final);
  }

  /** Containers that are neither desired nor the operator's are untouched, in their order. */
  lemma {:induction false} KeptForeign(existing: seq<Container>, wanted: map<string, Container>, userSet: bool,
                                       foreign: set<string>)
    requires UniqueNames(existing)
    requires forall k | k in wanted :: wanted[k].name == k
    requires forall n | n in foreign :: n !in wanted && !Managed(n)
    ensures Only(Kept(existing, wanted, userSet), foreign) == Only(existing, foreign)
  {
    if existing != [] {
      KeptHead(existing, wanted, userSet);
      KeptForeign(existing[1..], wanted, userSet, foreign);
      var c := existing[0];
      var head := if c.name in wanted then [Refresh(wanted[c.name], c, userSet)]
                  else if Managed(c.name) then [] else [c];
      OnlyConcat(head, Kept(existing[1..], wanted, userSet), foreign);
    }
  }

  lemma MergedForeign(existing: seq<Container>, desired: seq<Container>, userSet: bool, order: seq<string>,
                      final: seq<Container>, foreign: set<string>)
    requires UniqueNames(existing) && Merged(existing, desired, userSet, order, final)
    requires forall n | n in foreign :: n !in Names(desired) && OfUser(n)
    ensures Only(final, foreign) == Only(existing, foreign)
  {
    var wanted := Wanted(desired);
    WantedNames(desired);
    LeftMeaning(existing, wanted);
    KeptForeign(existing, wanted, userSet, foreign);
    OnlyConcat(Kept(existing, wanted, userSet), Appended(order, wanted), foreign);
    OnlyNone(Appended(order, wanted), foreign);
  }

  /** The names the operator manages, written out; every other live name is the user's. */
  predicate OfUser(name: string) {
    name != "dcgm-exporter" && name != "dcgm-hostengine" && name != "whatap-node-agent"
  }

  /** The user's containers of a list, among those not desired, in order. */
  function UserContainers(cs: seq<Container>, desired: seq<string>): seq<Container> {
    if cs == [] then []
    else if OfUser(cs[0].name) && cs[0].name !in desired then [cs[0]] + UserContainers(cs[1..], desired)
    else UserContainers(cs[1..], desired)
  }

  lemma {:induction false} UserContainersOnly(cs: seq<Container>, desired: seq<string>, names: set<string>)
    requires forall c | c in cs :: c.name in names <==> OfUser(c.name) && c.name !in desired
    ensures UserContainers(cs, desired) == Only(cs, names)
  {
    if cs != [] {
      UserContainersOnly(cs[1..], desired, names);
    }
  }

  /** Exactly the user's live containers that are not desired stay, unchanged and in live order. */
  lemma MergedKeepsUsers(existing: seq<Container>, desired: seq<Container>, userSet: bool, order: seq<string>,
                         final: seq<Container>)
    requires UniqueNames(existing) && Merged(existing, desired, userSet, order, final)
    ensures UserContainers(final, Names(desired)) == UserContainers(existing, Names(desired))
    ensures forall c | c in final && c.name !in Names(desired) :: OfUser(c.name) && c in existing
    ensures forall c | c in existing && c.name !in Names(desired) && OfUser(c.name) :: c in final
  {
    var wanted := Names(desired);
    var foreign := set c | c in existing + final && OfUser(c.name) && c.name !in wanted :: c.name;
    MergedForeign(existing, desired, userSet, order, final, foreign);
    UserContainersOnly(existing, wanted, foreign);
    UserContainersOnly(final, wanted, foreign);
    MergedNames(existing, desired, userSet, order, final);
    forall c | c in final && c.name !in wanted ensures OfUser(c.name) && c in existing {
      NameOf(final, c);
      OnlyMembers(final, foreign, c);
      OnlyMembers(existing, foreign, c);
    }
    forall c | c in existing && c.name !in wanted && OfUser(c.name) ensures c in final {
      OnlyMembers(existing, foreign, c);
      OnlyMembers(final, foreign, c);
    }
  }

  /** Of the containers not desired, all live ones stay unchanged but the three the operator manages, which go. */
  lemma SidecarStays(existing: seq<Container>, desired: seq<Container>, userSet: bool, order: seq<string>,
                     final: seq<Container>, c: Container)
    requires UniqueNames(existing) && Merged(existing, desired, userSet, order, final)
    requires c in existing && c.name !in Names(desired)
    ensures c in final <==> c.name != "dcgm-exporter" && c.name != "dcgm-hostengine" && c.name != "whatap-node-agent"
  {
    MergedKeepsUsers(existing, desired, userSet, order, final);
  }

  /** What a desired container becomes: itself, empty fields defaulted, or with the live resources of the node agent. */
  predicate Realises(c: Container, d: Container, existing: seq<Container>, userSet: bool) {
    && c.name == d.name && c.rest == d.rest
    && c.terminationPath == (if d.terminationPath == "" then "/dev/termination-log" else d.terminationPath)
    && c.terminationPolicy == (if d.terminationPolicy == "" then "File" else d.terminationPolicy)
    && c.pullPolicy == (if d.pullPolicy == "" then "IfNotPresent" else d.pullPolicy)
    && if d.name == "whatap-node-agent" && !userSet && d.name in Names(existing) then
         exists e | e in existing :: e.name == d.name && c.resources == e.resources
       else
         c.resources == d.resources
  }

  lemma {:induction false} KeptContent(existing: seq<Container>, wanted: map<string, Container>, userSet: bool)
    requires UniqueNames(existing)
    requires forall k | k in wanted :: wanted[k].name == k
    ensures forall c | c in Kept(existing, wanted, userSet) && c.name in wanted ::
              exists e | e in existing :: e.name == c.name && c == Refresh(wanted[c.name], e, userSet)
  {
    if existing != [] {
      KeptHead(existing, wanted, userSet);
      KeptContent(existing[1..], wanted, userSet);
      assert forall e :: e in existing[1..] ==> e in existing;
      forall c | c in Kept(existing, wanted, userSet) && c.name in wanted
        ensures exists e | e in existing :: e.name == c.name && c == Refresh(wanted[c.name], e, userSet)
      {
        if c !in Kept(existing[1..], wanted, userSet) {
          assert existing[0] in existing;
        }
      }
    }
  }

  lemma MergedContent(existing: seq<Container>, desired: seq<Container>, userSet: bool, order: seq<string>,
                      final: seq<Container>, c: Container, i: nat)
    requires UniqueNames(existing) && UniqueNames(desired) && Merged(existing, desired, userSet, order, final)
    requires c in final && i < |desired| && c.name == desired[i].name
    ensures Realises(c, desired[i], existing, userSet)
  {
    var wanted := Wanted(desired);
    WantedContent(desired, i);
    LeftMeaning(existing, wanted);
    if c in Kept(existing, wanted, userSet) {
      KeptContent(existing, wanted, userSet);
      var e :| e in existing && e.name == c.name && c == Refresh(wanted[c.name], e, userSet);
      NameOf(existing, e);
    } else {
      assert c in Appended(order, wanted);
      assert c == wanted[c.name] && c.name in order;
    }
  }

  lemma NameOf(cs: seq<Container>, c: Container)
    requires c in cs
    ensures c.name in Names(cs)
  {
    var i :| 0 <= i < |cs| && cs[i] == c;
    assert Names(cs)[i] == c.name;
  }

  /** Repeating the step with the same custom resource leaves the list as it is, whatever the map order. */
  lemma {:induction false} KeptFixed(cs: seq<Container>, wanted: map<string, Container>, userSet: bool)
    requires UniqueNames(cs)
    requires forall c | c in cs :: Stays(c.name, wanted)
    requires forall c | c in cs && c.name in wanted :: c == Refresh(wanted[c.name], c, userSet)
    ensures Kept(cs, wanted, userSet) == cs
  {
    if cs != [] {
      KeptHead(cs, wanted, userSet);
      KeptFixed(cs[1..], wanted, userSet);
      assert cs[0] in cs;
    }
  }

  lemma RefreshedInFinal(existing: seq<Container>, desired: seq<Container>, userSet: bool, order: seq<string>,
                         final: seq<Container>, c: Container)
    requires UniqueNames(existing) && Merged(existing, desired, userSet, order, final)
    requires c in final && c.name in Wanted(desired)
    ensures c == Refresh(Wanted(desired)[c.name], c, userSet)
  {
    var wanted := Wanted(desired);
    KeptContent(existing, wanted, userSet);
    if c !in Kept(existing, wanted, userSet) {
      assert c in Appended(order, wanted);
    }
  }

  lemma MergeFixpoint(existing: seq<Container>, desired: seq<Container>, userSet: bool, order: seq<string>,
                      final: seq<Container>, order': seq<string>, final': seq<Container>)
    requires UniqueNames(existing)
    requires Merged(existing, desired, userSet, order, final)
    requires Merged(final, desired, userSet, order', final')
    ensures final' == final
  {
    var wanted := Wanted(desired);
    MergedNames(existing, desired, userSet, order, final);
    WantedNames(desired);
    forall c | c in final
      ensures Stays(c.name, wanted)
      ensures c.name in wanted ==> c == Refresh(wanted[c.name], c, userSet)
    {
      NameOf(final, c);
      if c.name in wanted {
        RefreshedInFinal(existing, desired, userSet, order, final, c);
      }
    }
    KeptFixed(final, wanted, userSet);
    LeftMeaning(final, wanted);
    assert Left(final, wanted).Keys == {};
    EnumerationSize(order', {});
  }

  // --------------------------------------------------------------- whole runs

  datatype Step = Step(desired: seq<Container>, userSet: bool, order: seq<string>)

  /** Successive live lists under successive versions of the custom resource. */
  ghost predicate IsRun(states: seq<seq<Container>>, steps: seq<Step>) {
    |states| == |steps| + 1 && forall i | 0 <= i < |steps| :: Follows(states[i], steps[i], states[i + 1])
  }

  predicate Follows(existing: seq<Container>, s: Step, final: seq<Container>) {
    Merged(existing, s.desired, s.userSet, s.order, final)
  }

  /** The names after a step: the desired ones and the earlier unmanaged ones. */
  ghost predicate NamesAfter(existing: seq<Container>, s: Step, final: seq<Container>) {
    forall n :: n in Names(final) <==> n in Names(s.desired) || (n in Names(existing) && OfUser(n))
  }

  /** All the names are the user's, and none is desired by the step. */
  ghost predicate ForeignTo(foreign: set<string>, s: Step) {
    forall n | n in foreign :: n !in Names(s.desired) && OfUser(n)
  }

  lemma OneStep(existing: seq<Container>, s: Step, final: seq<Container>, foreign: set<string>)
    requires Follows(existing, s, final) && UniqueNames(existing) && ForeignTo(foreign, s)
    ensures UniqueNames(final) && NamesAfter(existing, s, final)
    ensures Only(final, foreign) == Only(existing, foreign)
  {
    MergedNames(existing, s.desired, s.userSet, s.order, final);
    MergedForeign(existing, s.desired, s.userSet, s.order, final, foreign);
  }

  /**
   Over any sequence of changes and any map orders: names stay unique, containers never desired and never the
   operator's survive unchanged and in order, and after each step the names present are the desired ones and
   the previous unmanaged ones.
   */
  lemma {:induction false} RunInvariant(states: seq<seq<Container>>, steps: seq<Step>, foreign: set<string>, k: nat)
    requires IsRun(states, steps) && UniqueNames(states[0]) && k <= |steps|
    requires forall i | 0 <= i < |steps| :: ForeignTo(foreign, steps[i])
    ensures UniqueNames(states[k])
    ensures Only(states[k], foreign) == Only(states[0], foreign)
    ensures k > 0 ==> NamesAfter(states[k - 1], steps[k - 1], states[k])
  {
    hide Follows, NamesAfter, ForeignTo, UniqueNames, Only;
    if k > 0 {
      RunInvariant(states, steps, foreign, k - 1);
      OneStep(states[k - 1], steps[k - 1], states[k], foreign);
    }
  }

  /** Over a whole run, a live container that is none of the three the operator manages, and is never desired, stays. */
  lemma RunKeepsSidecar(states: seq<seq<Container>>, steps: seq<Step>, c: Container, k: nat)
    requires IsRun(states, steps) && UniqueNames(states[0]) && k <= |steps|
    requires c in states[0] && forall i | 0 <= i < |steps| :: c.name !in Names(steps[i].desired)
    requires c.name != "dcgm-exporter" && c.name != "dcgm-hostengine" && c.name != "whatap-node-agent"
    ensures c in states[k]
  {
    RunInvariant(states, steps, {c.name}, k);
    OnlyMembers(states[0], {c.name}, c);
    OnlyMembers(states[k], {c.name}, c);
  }
}
