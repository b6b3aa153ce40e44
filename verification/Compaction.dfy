/** Context compaction: semantic selection checked against the deterministic view, and omission under a token bound. */
module Compaction {
  import opened Budget
  import opened JsonTree
  import opened Extraction
  import opened Reduction

  // ---------------------------------------------------------------- the semantic view

  datatype Invalidity = OutputInvalid | MandatorySourceChanged | NewId | NewContent
  datatype Selected = Selected(view: View) | Refused(why: Invalidity)

  /** A mandatory value is present and equal to the original one; an absent original reads as null. */
  predicate Kept(view: View, original: View, key: string) {
    key in view && PyEq(view[key], if key in original then original[key] else Null)
  }

  /** The view a candidate offers: its operation view, or the candidate itself. */
  function Offered(candidate: Json): Option<View> {
    if !candidate.Obj? then None
    else if "operation_view" !in candidate.fields then Some(candidate.fields)
    else if candidate.fields["operation_view"].Obj? then Some(candidate.fields["operation_view"].fields)
    else None
  }

  /** A candidate is read as the view under its key, or as a view itself if it has no such key. */
  lemma OfferedIs(candidate: Json, view: View)
    ensures Offered(candidate) == Some(view) <==>
              && candidate.Obj?
              && if "operation_view" in candidate.fields then candidate.fields["operation_view"] == Obj(view)
                 else candidate.fields == view
  {
  }

  /** The candidate offers an extractive view that keeps the mandatory values. */
  predicate Sound(candidate: Json, original: View, mandatory: set<string>) {
    && Offered(candidate).Some? && (forall k | k in mandatory :: Kept(Offered(candidate).value, original, k))
    && Extractive(Obj(Offered(candidate).value), Obj(original))
  }

  /** Validation accepts exactly the extractive views that keep the mandatory values; the identifier check adds
      nothing. */
  method ValidateSemanticView(candidate: Json, original: View, mandatory: set<string>) returns (r: Selected)
    ensures r.Selected? <==> Sound(candidate, original, mandatory)
    ensures r.Selected? ==> r.view == Offered(candidate).value
    ensures r.Selected? ==> forall k | k in mandatory ::
              k in r.view && (k in original ==> PyEq(r.view[k], original[k]))
                  && (k !in original ==> PyEq(r.view[k], Null))
    ensures r == Refused(OutputInvalid) <==> Offered(candidate).None?
    ensures r == Refused(MandatorySourceChanged) <==>
              Offered(candidate).Some? && exists k | k in mandatory :: !Kept(Offered(candidate).value, original, k)
    ensures r == Refused(NewId) || r == Refused(NewContent) ==>
              Offered(candidate).Some? && !Extractive(Obj(Offered(candidate).value), Obj(original))
    ensures Offered(candidate).Some? && (forall k | k in mandatory :: Kept(Offered(candidate).value, original, k)) ==>
              (r == Refused(NewId) <==> !(Ids(Obj(Offered(candidate).value), "") <= Ids(Obj(original), "")))
  {
    var offered := Offered(candidate);
    if offered.None? {
      return Refused(OutputInvalid);
    }
    var view, todo := offered.value, mandatory;
    while todo != {}
      invariant todo <= mandatory && forall k | k in mandatory - todo :: Kept(view, original, k)
      decreases todo
    {
      var key :| key in todo;
      if !Kept(view, original, key) {
        return Refused(MandatorySourceChanged);
      }
      todo := todo - {key};
    }
    var allowed := CollectIds(Obj(original), "");
    var ids := CollectIds(Obj(view), "");
    if !(ids <= allowed) {
      if Extractive(Obj(view), Obj(original)) {
        ExtractiveKeepsIds(Obj(view), Obj(original), "");
      }
      return Refused(NewId);
    }
    if !Extractive(Obj(view), Obj(original)) {
      return Refused(NewContent);
    }
    return Selected(view);
  }

  // ---------------------------------------------------------------- the order of omission

  const ESSENTIAL: set<string> :=
    {"task_message", "unit_scope", "base_candidate", "quality_issues", "remaining_budget"}
  const BACKGROUND: set<string> := {"coverage", "markdown", "project_memory"}
  const PRIOR_ACTIONS := "prior_actions"

  function Priority(key: string): nat {
    if key in ESSENTIAL then 0
    else if key in BACKGROUND then 1
    else if key == PRIOR_ACTIONS then 3
    else 2
  }

  predicate TextLess(a: string, b: string) {
    b != [] && (a == [] || a[0] < b[0] || (a[0] == b[0] && TextLess(a[1..], b[1..])))
  }

  /** The first key is omitted before the second: its priority number is higher, or its name comes later. */
  predicate Before(a: string, b: string) {
    Priority(a) > Priority(b) || (Priority(a) == Priority(b) && TextLess(b, a))
  }

  lemma {:induction false} TextLessTotal(a: string, b: string)
    ensures a == b || TextLess(a, b) || TextLess(b, a)
  {
    if a != [] && b != [] && a[0] == b[0] {
      TextLessTotal(a[1..], b[1..]);
      assert a == [a[0]] + a[1..] && b == [b[0]] + b[1..];
    }
  }

  lemma {:induction false} TextLessTransitive(a: string, b: string, c: string)
    requires TextLess(a, b) && TextLess(b, c)
    ensures TextLess(a, c)
  {
    if a != [] && a[0] == b[0] && b[0] == c[0] {
      TextLessTransitive(a[1..], b[1..], c[1..]);
    }
  }

  /** Some key of a non-empty set is omitted before all others. */
  lemma {:induction false} FirstOf(keys: set<string>) returns (k: string)
    requires keys != {}
    ensures k in keys && forall x | x in keys && x != k :: Before(k, x)
    decreases keys
  {
    var one :| one in keys;
    var rest := keys - {one};
    assert keys == rest + {one};
    if rest == {} {
      return one;
    }
    var best := FirstOf(rest);
    TextLessTotal(one, best);
    if !Before(one, best) {
      return best;
    }
    forall x | x in rest && x != best ensures Before(one, x) {
      if Priority(one) == Priority(best) && Priority(best) == Priority(x) {
        TextLessTransitive(x, best, one);
      }
    }
    return one;
  }

  predicate Descending(order: seq<string>) {
    forall i, j | 0 <= i < j < |order| :: Before(order[i], order[j])
  }

  /** The optional keys in the order of their omission. */
  method OmissionOrder(keys: set<string>) returns (order: seq<string>)
    ensures Descending(order) && forall k :: k in order <==> k in keys
  {
    order := [];
    var todo := keys;
    while todo != {}
      invariant todo <= keys && forall k :: k in order <==> k in keys - todo
      invariant Descending(order) && forall i, k | 0 <= i < |order| && k in todo :: Before(order[i], k)
      decreases todo
    {
      ghost var first := FirstOf(todo);
      var key :| key in todo && forall x | x in todo && x != key :: Before(key, x);
      order := order + [key];
      todo := todo - {key};
    }
  }

  // ---------------------------------------------------------------- emergency omission

  function Without(view: View, omitted: seq<string>): View {
    map k | k in view && k !in omitted :: view[k]
  }

  /** What emergency omission did: it dropped optional keys from the front of the omission order, no more of them
      than needed. */
  ghost predicate OmitsShortest(view: View, mandatory: set<string>, target: int, estimate: View -> int, reduced: View,
      omitted: seq<string>) {
    && reduced == Without(view, omitted)
    && Descending(omitted) && (forall k | k in omitted :: k in view && k !in mandatory)
    && (forall k, x | k in omitted && x in reduced && x !in mandatory :: Before(k, x))
    && (forall n | 0 <= n < |omitted| :: estimate(Without(view, omitted[..n])) > target)
    && (estimate(reduced) <= target || forall k | k in reduced :: k in mandatory)
  }

  method EmergencyReduce(view: View, mandatory: set<string>, target: int, estimate: View -> int)
      returns (reduced: View, omitted: seq<string>)
    ensures OmitsShortest(view, mandatory, target, estimate, reduced, omitted)
  {
    var order := OmissionOrder(view.Keys - mandatory);
    reduced, omitted := view, [];
    assert Without(view, []) == view;
    for i := 0 to |order|
      invariant omitted == order[..i] && reduced == Without(view, omitted)
      invariant forall n | 0 <= n < i :: estimate(Without(view, order[..n])) > target
    {
      if estimate(reduced) <= target {
        Dropped(view, mandatory, order, i);
        return;
      }
      reduced := reduced - {order[i]};
      omitted := omitted + [order[i]];
      assert order[..i + 1] == order[..i] + [order[i]];
    }
    Dropped(view, mandatory, order, |order|);
  }

  /** A prefix of the omission order against what it leaves. */
  lemma Dropped(view: View, mandatory: set<string>, order: seq<string>, i: nat)
    requires i <= |order| && Descending(order) && forall k :: k in order <==> k in view.Keys - mandatory
    ensures Descending(order[..i]) && forall k | k in order[..i] :: k in view && k !in mandatory
    ensures forall n | 0 <= n < i :: order[..i][..n] == order[..n]
    ensures forall k, x | k in order[..i] && x in Without(view, order[..i]) && x !in mandatory :: Before(k, x)
    ensures i == |order| ==> forall k | k in Without(view, order[..i]) :: k in mandatory
  {
    assert forall k | k in order[..i] :: k in order;
    assert forall b | 0 <= b < i :: order[..i][b] == order[b] && order[b] in order[..i];
    forall k, x | k in order[..i] && x in Without(view, order[..i]) && x !in mandatory ensures Before(k, x) {
      var a :| 0 <= a < i && order[a] == k;
      assert x in order;
      var b :| 0 <= b < |order| && order[b] == x;
    }
    if i == |order| {
      assert order[..i] == order;
    }
  }

  lemma {:induction false} TextLessAsymmetric(a: string, b: string)
    requires TextLess(a, b)
    ensures a != b && !TextLess(b, a)
  {
    if a != [] && a[0] == b[0] {
      TextLessAsymmetric(a[1..], b[1..]);
    }
  }

  lemma BeforeAsymmetric(a: string, b: string)
    requires Before(a, b)
    ensures a != b && !Before(b, a)
  {
    if TextLess(b, a) {
      TextLessAsymmetric(b, a);
    }
  }

  /** Two omissions agree as far as both go. */
  lemma {:induction false} OmissionsAgree(view: View, mandatory: set<string>, a: seq<string>, b: seq<string>, n: nat)
    requires Leads(view, mandatory, a) && Leads(view, mandatory, b) && n <= |a| && n <= |b|
    ensures a[..n] == b[..n]
  {
    if n > 0 {
      OmissionsAgree(view, mandatory, a, b, n - 1);
      if a[n - 1] != b[n - 1] {
        LeadsAt(view, mandatory, a, b, n - 1);
        LeadsAt(view, mandatory, b, a, n - 1);
        BeforeAsymmetric(a[n - 1], b[n - 1]);
        assert false;
      }
      assert a[..n] == a[..n - 1] + [a[n - 1]] && b[..n] == b[..n - 1] + [b[n - 1]];
    }
  }

  /** The omitted keys are optional, in order, and omitted before all others. */
  ghost predicate Leads(view: View, mandatory: set<string>, omitted: seq<string>) {
    && Descending(omitted) && (forall k | k in omitted :: k in view && k !in mandatory)
    && (forall k, x | k in omitted && x in view && x !in omitted && x !in mandatory :: Before(k, x))
  }

  lemma LeadsAt(view: View, mandatory: set<string>, a: seq<string>, b: seq<string>, i: nat)
    requires Leads(view, mandatory, a) && Leads(view, mandatory, b) && i < |a| && i < |b| && a[..i] == b[..i]
    requires a[i] != b[i]
    ensures Before(a[i], b[i])
  {
    assert b[i] in b;
    if b[i] in a {
      var j :| 0 <= j < |a| && a[j] == b[i];
      if j < i {
        assert a[..i][j] == b[..i][j];
        BeforeAsymmetric(b[j], b[i]);
      }
    } else {
      assert a[i] in a;
    }
  }

  /** There is one way to omit the fewest keys, so the contract of the omission determines it. */
  lemma OmissionIsDetermined(view: View, mandatory: set<string>, target: int, estimate: View -> int,
                             first: View, a: seq<string>, second: View, b: seq<string>)
    requires OmitsShortest(view, mandatory, target, estimate, first, a)
    requires OmitsShortest(view, mandatory, target, estimate, second, b)
    ensures a == b && first == second
  {
    if |a| < |b| {
      OmissionIsShorter(view, mandatory, target, estimate, first, a, second, b);
    } else if |b| < |a| {
      OmissionIsShorter(view, mandatory, target, estimate, second, b, first, a);
    } else {
      OmissionsAgree(view, mandatory, a, b, |a|);
      assert a[..|a|] == a && b[..|b|] == b;
    }
  }

  lemma OmissionIsShorter(view: View, mandatory: set<string>, target: int, estimate: View -> int,
                          first: View, a: seq<string>, second: View, b: seq<string>)
    requires OmitsShortest(view, mandatory, target, estimate, first, a)
    requires OmitsShortest(view, mandatory, target, estimate, second, b)
    ensures |a| >= |b|
  {
    if |a| < |b| {
      OmissionsAgree(view, mandatory, a, b, |a|);
      assert a[..|a|] == a == b[..|a|];
      assert estimate(first) > target;
      var k := b[|a|];
      assert k in b;
      if k in a {
        var j :| 0 <= j < |a| && a[j] == k;
        assert b[..|a|][j] == b[j];
        BeforeAsymmetric(b[j], b[|a|]);
      }
      assert false;
    }
  }

  lemma GroupsInOrder(a: string, b: string)
    requires Before(a, b)
    ensures b == PRIOR_ACTIONS ==> a == PRIOR_ACTIONS
    ensures a in ESSENTIAL + BACKGROUND ==> b in ESSENTIAL + BACKGROUND
    ensures a in ESSENTIAL ==> b in ESSENTIAL
  {
    assert PRIOR_ACTIONS !in ESSENTIAL && PRIOR_ACTIONS !in BACKGROUND;
  }

  /** What goes first: the prior actions, then what has no place of its own, then the coverage, the markdown and the
      project memory.  The message, the scope, the candidate, the issues and the budget go last. */
  lemma OmissionFollowsGroups(view: View, mandatory: set<string>, target: int, estimate: View -> int, reduced: View,
                              omitted: seq<string>, k: string)
    requires OmitsShortest(view, mandatory, target, estimate, reduced, omitted) && k in omitted
    ensures forall x | x in reduced && x !in mandatory ::
              && (x == PRIOR_ACTIONS ==> k == PRIOR_ACTIONS)
              && (k in ESSENTIAL + BACKGROUND ==> x in ESSENTIAL + BACKGROUND)
              && (k in ESSENTIAL ==> x in ESSENTIAL)
  {
    forall x | x in reduced && x !in mandatory
      ensures x == PRIOR_ACTIONS ==> k == PRIOR_ACTIONS
      ensures k in ESSENTIAL + BACKGROUND ==> x in ESSENTIAL + BACKGROUND
      ensures k in ESSENTIAL ==> x in ESSENTIAL
    {
      GroupsInOrder(k, x);
    }
  }

  // ---------------------------------------------------------------- the decision

  datatype Policy = Policy(threshold: int, target: int, hard: int)
  datatype Kind = NoCompaction | Deterministic | Semantic | DeterministicEmergency | SemanticAndEmergency
  datatype Prepared = Prepared(view: View, kind: Kind, omitted: seq<string>) | Unsatisfiable | Refusal(why: Invalidity)

  /** A view obtained from another by selection and omission that keeps the mandatory values. */
  ghost predicate SoundView(view: View, base: View, mandatory: set<string>) {
    Extractive(Obj(view), Obj(base)) && forall k | k in mandatory :: Kept(view, base, k)
  }

  lemma OmissionIsSound(view: View, base: View, mandatory: set<string>, reduced: View, omitted: seq<string>)
    requires SoundView(view, base, mandatory) && reduced == Without(view, omitted)
             && forall k | k in omitted :: k !in mandatory
    ensures SoundView(reduced, base, mandatory)
  {
    assert Obj(reduced).Obj? && Obj(view).Obj?;
    forall k | k in reduced ensures k in base && Extractive(reduced[k], base[k]) {
      assert Extractive(view[k], base[k]);
    }
  }

  lemma SelfIsSound(base: View, mandatory: set<string>)
    requires mandatory <= base.Keys
    ensures SoundView(base, base, mandatory)
  {
    ExtractiveReflexive(Obj(base));
    forall k | k in mandatory ensures Kept(base, base, k) {
      PyEqReflexive(base[k]);
    }
  }

  /** The view a request starts from: the original below the threshold, the deterministic reduction above it. */
  function BaseView(policy: Policy, estimate: View -> int, original: View, deterministic: View): View {
    if estimate(original) <= policy.threshold then original else deterministic
  }

  function OnlyMandatory(view: View, mandatory: set<string>): View {
    map k | k in view && k in mandatory :: view[k]
  }

  /** The candidate is asked for. */
  predicate Asks(policy: Policy, estimate: View -> int, original: View, deterministic: View) {
    estimate(original) > policy.threshold && estimate(deterministic) > policy.target
  }

  /** What is left to omit from: the view of a candidate that was asked for, or else the base view. */
  ghost predicate Starts(policy: Policy, estimate: View -> int, original: View, deterministic: View,
                         candidate: Option<Json>, view: View) {
    if candidate.Some? && Asks(policy, estimate, original, deterministic) then Offered(candidate.value) == Some(view)
    else view == if estimate(original) <= policy.threshold then original else deterministic
  }

  /** The view goes as it is: it is within the hard limit, and within the target if compaction was required. */
  predicate Fits(policy: Policy, estimate: View -> int, original: View, view: View) {
    estimate(view) <= policy.hard && (estimate(original) > policy.threshold ==> estimate(view) <= policy.target)
  }

  /** What is sent for a view: the view itself if it fits, else what the shortest omission leaves; the failure if
      that is over the hard limit. */
  ghost predicate Sends(policy: Policy, estimate: View -> int, original: View, mandatory: set<string>, view: View,
                        r: Prepared) {
    if Fits(policy, estimate, original, view) then r.Prepared? && r.view == view && r.omitted == []
    else exists reduced, omitted ::
           && OmitsShortest(view, mandatory, policy.target, estimate, reduced, omitted)
           && (r.Unsatisfiable? <==> estimate(reduced) > policy.hard)
           && (r.Prepared? <==> estimate(reduced) <= policy.hard)
           && (r.Prepared? ==> r.view == reduced && r.omitted == omitted)
  }

  /** The decision of what to send.  The candidate is the semantic compactor's answer, if it was asked and had
      budget. */
  method PrepareView(policy: Policy, estimate: View -> int, original: View, deterministic: View, mandatory: set<string>,
      candidate: Option<Json>)
    returns (r: Prepared)
    requires mandatory <= original.Keys && mandatory <= deterministic.Keys
    ensures r.Prepared? ==> SoundView(r.view, BaseView(policy, estimate, original, deterministic), mandatory)
    ensures r.Prepared? ==> estimate(r.view) <= policy.hard
    ensures r.Prepared? && estimate(original) > policy.threshold ==>
              estimate(r.view) <= policy.target
              || forall k | k in r.view :: k in mandatory
    ensures r.Prepared? && r.kind.NoCompaction? ==> r.view == original
    ensures r.Unsatisfiable? && policy.target <= policy.hard ==>
              exists v: View ::
                && v.Keys == mandatory && SoundView(v, BaseView(policy, estimate, original, deterministic), mandatory)
                && estimate(v) > policy.hard
    ensures r.Unsatisfiable? && candidate.None? && policy.target <= policy.hard ==>
              estimate(OnlyMandatory(BaseView(policy, estimate, original, deterministic), mandatory)) > policy.hard
    ensures r.Prepared? && !r.kind.Semantic? && !r.kind.SemanticAndEmergency? ==>
              r.view == Without(BaseView(policy, estimate, original, deterministic), r.omitted)
    ensures r.Refusal? <==>
              && candidate.Some? && estimate(original) > policy.threshold && estimate(deterministic) > policy.target
              && !Sound(candidate.value, deterministic, mandatory)
    ensures !r.Refusal? ==>
              exists view ::
                && Starts(policy, estimate, original, deterministic, candidate, view)
                && Sends(policy, estimate, original, mandatory, view, r)
    ensures r.Prepared? && (r.kind.Semantic? || r.kind.SemanticAndEmergency?) ==>
              && candidate.Some? && Offered(candidate.value).Some?
              && r.view == Without(Offered(candidate.value).value, r.omitted)
    ensures r.Prepared? ==>
              && (r.kind.NoCompaction? || r.kind.Deterministic? || r.kind.Semantic? ==> r.omitted == [])
              && (r.kind.NoCompaction? ==> estimate(original) <= policy.threshold)
              && (r.kind.Deterministic? || r.kind.Semantic? || r.kind.SemanticAndEmergency? ==>
                    estimate(original) > policy.threshold)
  {
    var required := estimate(original) > policy.threshold;
    var base := BaseView(policy, estimate, original, deterministic);
    var view, kind := base, if required then Deterministic else NoCompaction;
    SelfIsSound(base, mandatory);
    if required && estimate(view) > policy.target && candidate.Some? {
      var selected := ValidateSemanticView(candidate.value, base, mandatory);
      if selected.Refused? {
        return Refusal(selected.why);
      }
      view, kind := selected.view, Semantic;
    }
    r := Send(policy, estimate, original, mandatory, view, kind);
    SentIsSound(policy, estimate, original, mandatory, view, base, r);
  }

  /** The omission, if the view does not fit, and the hard limit. */
  method Send(policy: Policy, estimate: View -> int, original: View, mandatory: set<string>, view: View, kind: Kind)
    returns (r: Prepared)
    ensures !r.Refusal? && Sends(policy, estimate, original, mandatory, view, r)
    ensures r.Prepared? ==> r.kind == if Fits(policy, estimate, original, view) then kind
                                      else if kind.Semantic? then SemanticAndEmergency
                                      else DeterministicEmergency
  {
    var reduced, omitted, kind := view, [], kind;
    if (estimate(original) > policy.threshold && estimate(view) > policy.target) || estimate(view) > policy.hard {
      reduced, omitted := EmergencyReduce(view, mandatory, policy.target, estimate);
      kind := if kind.Semantic? then SemanticAndEmergency else DeterministicEmergency;
    }
    if estimate(reduced) > policy.hard {
      return Unsatisfiable;
    }
    return Prepared(reduced, kind, omitted);
  }

  /** What is sent for a sound view is sound, and within the limits; the failure is one of the mandatory values. */
  lemma SentIsSound(policy: Policy, estimate: View -> int, original: View, mandatory: set<string>, view: View,
                    base: View, r: Prepared)
    requires SoundView(view, base, mandatory) && !r.Refusal? && Sends(policy, estimate, original, mandatory, view, r)
    ensures r.Prepared? ==>
              && SoundView(r.view, base, mandatory) && r.view == Without(view, r.omitted)
              && estimate(r.view) <= policy.hard
              && (estimate(original) > policy.threshold ==>
                    estimate(r.view) <= policy.target || forall k | k in r.view :: k in mandatory)
    ensures r.Unsatisfiable? && policy.target <= policy.hard ==>
              estimate(OnlyMandatory(view, mandatory)) > policy.hard
              && SoundView(OnlyMandatory(view, mandatory), base, mandatory)
              && OnlyMandatory(view, mandatory).Keys == mandatory
  {
    if Fits(policy, estimate, original, view) {
      assert Without(view, []) == view;
    } else {
      var reduced, omitted :|
        && OmitsShortest(view, mandatory, policy.target, estimate, reduced, omitted)
        && (r.Unsatisfiable? <==> estimate(reduced) > policy.hard)
        && (r.Prepared? <==> estimate(reduced) <= policy.hard)
        && (r.Prepared? ==> r.view == reduced && r.omitted == omitted);
      OmissionIsSound(view, base, mandatory, reduced, omitted);
      if r.Unsatisfiable? && policy.target <= policy.hard {
        assert reduced == OnlyMandatory(view, mandatory);
      }
    }
  }

  datatype Payload = Payload(text: Text, operation: string, limits: Limits, original: View, mandatory: set<string>)

  /** The preparation from the payload on.  NotReducible is the error of a unit scope that cannot be read. */
  datatype Preparation = Ready(prepared: Prepared) | NotReducible

  /** The preparation of a payload: below the threshold a mandatory value is sent equal to the original one, and
      above it if the reduction has nothing to take out of it. */
  method Prepare(policy: Policy, estimate: View -> int, p: Payload, candidate: Option<Json>) returns (r: Preparation)
    requires p.mandatory <= p.original.Keys
    ensures r.NotReducible? <==>
              estimate(p.original) > policy.threshold && !Reducible(p.text, p.operation, p.limits, p.original)
    ensures r.Ready? && r.prepared.Prepared? ==> estimate(r.prepared.view) <= policy.hard
    ensures r.Ready? && !r.prepared.Refusal? ==>
              var reduced := if estimate(p.original) <= policy.threshold then p.original
                             else Reduction.Deterministic(p.text, p.operation, p.limits, p.original, p.mandatory);
              exists view ::
                && Starts(policy, estimate, p.original, reduced, candidate, view)
                && Sends(policy, estimate, p.original, p.mandatory, view, r.prepared)
    ensures r.Ready? && r.prepared.Prepared? ==> forall k | k in p.mandatory ::
              k in r.prepared.view
              && (estimate(p.original)
                  <= policy.threshold || Untouched(p.text, p.operation, p.limits, k, p.original[k]) ==>
                    PyEq(r.prepared.view[k], p.original[k]))
  {
    var deterministic := p.original;
    if estimate(p.original) > policy.threshold {
      var reduced := DeterministicReduce(p.text, p.operation, p.limits, p.original, p.mandatory);
      if reduced.None? {
        return NotReducible;
      }
      deterministic := reduced.value;
      forall k | k in p.mandatory && Untouched(p.text, p.operation, p.limits, k, p.original[k])
        ensures deterministic[k] == p.original[k]
      {
        MandatoryIsKeptIff(p.text, p.operation, p.limits, p.original, p.mandatory, k);
      }
    }
    var prepared := PrepareView(policy, estimate, p.original, deterministic, p.mandatory, candidate);
    return Ready(prepared);
  }
}
