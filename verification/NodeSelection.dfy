/**
 Node selectors and the term algebra the operator applies to them.

 A node selector is a disjunction of terms, a term is a conjunction of requirements, an
 empty term matches nothing, and `NotIn` holds of a node that lacks the key. `Gt` and `Lt`
 (and any unknown operator) are uninterpreted: a node says which such requirements it meets.
 */
module NodeSelection {
  import LabelSets

  datatype Operator = In | NotIn | Exists | DoesNotExist | Unmanaged(text: string)

  datatype Requirement = Requirement(key: string, op: Operator, values: seq<string>)

  datatype Term = Term(matchExpressions: seq<Requirement>, matchFields: seq<Requirement>)

  /** What requirements are evaluated against: key/value pairs, and the uninterpreted requirements that hold. */
  datatype Attributes = Attributes(values: map<string, string>, compared: set<Requirement>)

  datatype Node = Node(labels: Attributes, fields: Attributes)

  predicate Holds(a: Attributes, r: Requirement) {
    match r.op
    case In => r.key in a.values && a.values[r.key] in r.values
    case NotIn => r.key in a.values ==> a.values[r.key] !in r.values
    case Exists => r.key in a.values
    case DoesNotExist => r.key !in a.values
    case Unmanaged(_) => r in a.compared
  }

  predicate HoldsAll(a: Attributes, rs: seq<Requirement>) {
    forall r | r in rs :: Holds(a, r)
  }

  predicate NonEmpty(t: Term) {
    t.matchExpressions != [] || t.matchFields != []
  }

  predicate TermMatches(n: Node, t: Term) {
    && NonEmpty(t)
    && HoldsAll(n.labels, t.matchExpressions)
    && HoldsAll(n.fields, t.matchFields)
  }

  predicate Matches(n: Node, terms: seq<Term>) {
    exists t | t in terms :: TermMatches(n, t)
  }

  predicate HasLabels(n: Node, selector: map<string, string>) {
    LabelSets.Contains(n.labels.values, selector)
  }

  lemma MatchesConcat(n: Node, a: seq<Term>, b: seq<Term>)
    ensures Matches(n, a + b) <==> Matches(n, a) || Matches(n, b)
  {
    forall t | t in a + b ensures t in a || t in b {}
  }

  // ---------------------------------------------------------------- negation

  predicate SetOperator(op: Operator) {
    !op.Unmanaged?
  }

  function Opposite(op: Operator): Operator
    requires SetOperator(op)
  {
    match op
    case In => NotIn
    case NotIn => In
    case Exists => DoesNotExist
    case DoesNotExist => Exists
  }

  function Opposed(r: Requirement): Requirement
    requires SetOperator(r.op)
  {
    r.(op := Opposite(r.op))
  }

  /** One single-requirement term per set-operator requirement; the others are skipped. */
  function Negation(rs: seq<Requirement>): seq<Term> {
    if rs == [] then []
    else if SetOperator(rs[0].op) then [Term([Opposed(rs[0])], [])] + Negation(rs[1..])
    else Negation(rs[1..])
  }

  method NegateNodeSelectorTerm(term: Term) returns (terms: seq<Term>)
    ensures terms == Negation(term.matchExpressions)
  {
    terms := [];
    for i := 0 to |term.matchExpressions|
      invariant terms + Negation(term.matchExpressions[i..]) == Negation(term.matchExpressions)
    {
      var req := term.matchExpressions[i];
      var op;
      match req.op {
        case In => op := NotIn;
        case NotIn => op := In;
        case Exists => op := DoesNotExist;
        case DoesNotExist => op := Exists;
        case Unmanaged(_) => continue;
      }
      terms := terms + [Term([Requirement(req.key, op, req.values)], [])];
    }
  }

  lemma OpposedIsComplement(a: Attributes, r: Requirement)
    requires SetOperator(r.op)
    ensures Holds(a, Opposed(r)) <==> !Holds(a, r)
  {}

  /** For every list: the produced terms match exactly the nodes that fail a set-operator requirement of it. */
  lemma {:induction false} NegationMeaning(n: Node, rs: seq<Requirement>)
    ensures Matches(n, Negation(rs)) <==> exists r | r in rs :: SetOperator(r.op) && !Holds(n.labels, r)
  {
    if rs != [] {
      var rest := Negation(rs[1..]);
      NegationMeaning(n, rs[1..]);
      assert forall r :: r in rs <==> r == rs[0] || r in rs[1..];
      if SetOperator(rs[0].op) {
        var head := Term([Opposed(rs[0])], []);
        OpposedIsComplement(n.labels, rs[0]);
        MatchesConcat(n, [head], rest);
        assert head.matchExpressions[0] == Opposed(rs[0]);
        assert TermMatches(n, head) <==> Holds(n.labels, Opposed(rs[0]));
      }
    }
  }

  predicate Negatable(t: Term) {
    && t.matchExpressions != []
    && t.matchFields == []
    && forall r | r in t.matchExpressions :: SetOperator(r.op)
  }

  lemma NegationSound(n: Node, t: Term)
    requires Matches(n, Negation(t.matchExpressions))
    ensures !TermMatches(n, t)
  {
    NegationMeaning(n, t.matchExpressions);
  }

  lemma NegationExact(n: Node, t: Term)
    requires Negatable(t)
    ensures Matches(n, Negation(t.matchExpressions)) <==> !TermMatches(n, t)
  {
    NegationMeaning(n, t.matchExpressions);
  }

  /** A skipped `Gt` (or a field requirement) leaves nodes matched by neither the term nor its negation. */
  lemma NegationInexactBeyondSetOperators(n: Node, t: Term)
    requires exists r | r in t.matchExpressions :: r.op.Unmanaged? && !Holds(n.labels, r)
    requires forall r | r in t.matchExpressions && SetOperator(r.op) :: Holds(n.labels, r)
    ensures !TermMatches(n, t) && !Matches(n, Negation(t.matchExpressions))
  {
    NegationMeaning(n, t.matchExpressions);
  }

  lemma {:induction false} NegationWellFormed(rs: seq<Requirement>)
    ensures forall t | t in Negation(rs) :: Negatable(t)
    ensures Negation(rs) == [] <==> forall r | r in rs :: r.op.Unmanaged?
  {
    if rs != [] {
      NegationWellFormed(rs[1..]);
      assert forall r :: r in rs <==> r == rs[0] || r in rs[1..];
    }
  }

  // ------------------------------------------------------------ distribution

  /** The copy of a user term extended with an added term's expressions; the added term's fields are dropped. */
  function Conjoin(user: Term, added: Term): Term {
    Term(user.matchExpressions + added.matchExpressions, user.matchFields)
  }

  function CrossRow(user: Term, added: seq<Term>): seq<Term> {
    seq(|added|, j requires 0 <= j < |added| => Conjoin(user, added[j]))
  }

  function Cross(users: seq<Term>, added: seq<Term>): seq<Term> {
    if users == [] then [] else CrossRow(users[0], added) + Cross(users[1..], added)
  }

  method CrossTerms(existing: seq<Term>, added: seq<Term>) returns (newTerms: seq<Term>)
    ensures newTerms == Cross(existing, added)
  {
    newTerms := [];
    for i := 0 to |existing|
      invariant newTerms + Cross(existing[i..], added) == Cross(existing, added)
    {
      ghost var before := newTerms;
      for j := 0 to |added|
        invariant newTerms == before + CrossRow(existing[i], added)[..j]
      {
        var nt := existing[i];
        nt := nt.(matchExpressions := nt.matchExpressions + added[j].matchExpressions);
        newTerms := newTerms + [nt];
      }
      assert existing[i..][1..] == existing[i + 1..];
    }
  }

  lemma {:induction false} CrossMembers(users: seq<Term>, added: seq<Term>)
    ensures |Cross(users, added)| == |users| * |added|
    ensures forall u, a | u in users && a in added :: Conjoin(u, a) in Cross(users, added)
    ensures forall t | t in Cross(users, added) :: exists u, a :: u in users && a in added && t == Conjoin(u, a)
  {
    if users != [] {
      CrossMembers(users[1..], added);
      var row := CrossRow(users[0], added);
      assert forall u :: u in users <==> u == users[0] || u in users[1..];
      forall a | a in added ensures Conjoin(users[0], a) in row {
        var j :| 0 <= j < |added| && added[j] == a;
        assert row[j] == Conjoin(users[0], a);
      }
      forall t | t in row ensures exists a :: a in added && t == Conjoin(users[0], a) {
        var j :| 0 <= j < |row| && row[j] == t;
        assert added[j] in added;
      }
      assert |users| * |added| == |added| + |users[1..]| * |added|;
    }
  }

  /** Whatever the user terms are, a crossed list only matches nodes that meet an added term's expressions. */
  lemma CrossImpliesAdded(n: Node, users: seq<Term>, added: seq<Term>)
    requires Matches(n, Cross(users, added))
    ensures exists a | a in added :: HoldsAll(n.labels, a.matchExpressions)
  {
    CrossMembers(users, added);
    var t :| t in Cross(users, added) && TermMatches(n, t);
    var u, a :| u in users && a in added && t == Conjoin(u, a);
    forall r | r in a.matchExpressions ensures r in t.matchExpressions {}
  }

  /**
   Over non-empty user terms, crossing with any list is conjunction with the expressions of that list:
   the fields of an added term play no part.
   */
  lemma CrossMeaning(n: Node, users: seq<Term>, added: seq<Term>)
    requires forall u | u in users :: NonEmpty(u)
    ensures Matches(n, Cross(users, added)) <==>
            Matches(n, users) && exists a | a in added :: HoldsAll(n.labels, a.matchExpressions)
  {
    CrossMembers(users, added);
    if Matches(n, Cross(users, added)) {
      CrossImpliesAdded(n, users, added);
      var t :| t in Cross(users, added) && TermMatches(n, t);
      var u, a :| u in users && a in added && t == Conjoin(u, a);
      forall r | r in u.matchExpressions ensures r in t.matchExpressions {}
      assert TermMatches(n, u);
    }
    if Matches(n, users) && exists a | a in added :: HoldsAll(n.labels, a.matchExpressions) {
      var u :| u in users && TermMatches(n, u);
      var a :| a in added && HoldsAll(n.labels, a.matchExpressions);
      assert TermMatches(n, Conjoin(u, a));
    }
  }

  /** Distribution preserves meaning when the added terms are non-empty and carry no fields. */
  lemma CrossPreservesMeaning(n: Node, users: seq<Term>, added: seq<Term>)
    requires forall u | u in users :: NonEmpty(u)
    requires forall a | a in added :: a.matchExpressions != [] && a.matchFields == []
    ensures Matches(n, Cross(users, added)) <==> Matches(n, users) && Matches(n, added)
  {
    CrossMeaning(n, users, added);
    forall a | a in added ensures TermMatches(n, a) <==> HoldsAll(n.labels, a.matchExpressions) {}
  }

  /**
   Exactly what distribution does to arbitrary user terms: an empty term, which matches nothing by itself, stops
   constraining anything once an added term's expressions join it.
   */
  lemma CrossWithEmptyTerms(n: Node, users: seq<Term>, added: seq<Term>)
    requires forall a | a in added :: a.matchExpressions != [] && a.matchFields == []
    ensures Matches(n, Cross(users, added)) <==>
            (Matches(n, users) || exists u | u in users :: !NonEmpty(u)) && Matches(n, added)
  {
    CrossMembers(users, added);
    if Matches(n, Cross(users, added)) {
      CrossImpliesAdded(n, users, added);
      var a' :| a' in added && HoldsAll(n.labels, a'.matchExpressions);
      assert TermMatches(n, a');
      var t :| t in Cross(users, added) && TermMatches(n, t);
      var u, a :| u in users && a in added && t == Conjoin(u, a);
      forall r | r in u.matchExpressions ensures r in t.matchExpressions {}
      assert NonEmpty(u) ==> TermMatches(n, u);
    }
    if u :| u in users && (TermMatches(n, u) || !NonEmpty(u)) {
      if Matches(n, added) {
        var a :| a in added && TermMatches(n, a);
        assert TermMatches(n, Conjoin(u, a));
      }
    }
  }

  // ------------------------------------------- the list a DaemonSet ends up with

  /** Added terms replace an empty list and are distributed over a non-empty one. */
  function Distribute(existing: seq<Term>, added: seq<Term>): seq<Term> {
    if existing == [] then added else Cross(existing, added)
  }
}
