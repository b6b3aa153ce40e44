/** The deterministic reduction of a payload: unit scope, recent lists, and bounded optional strings. */
module Reduction {
  import opened Budget
  import opened JsonTree
  import opened Extraction

  type View = map<string, Json>

  /** str(), and the shortening of the strings of an optional value; neither is modelled. */
  datatype Text = Text(show: Json -> string, shorten: Json -> Json)

  /** The policy refuses limits that are not positive. */
  type Positive = n: nat | 0 < n witness 1

  datatype Limits = Limits(observations: Positive, priorActions: Positive)

  predicate Truthy(v: Json) {
    match v
    case Null => false
    case Bool(b) => b
    case Int(n) => n != 0
    case Float(r) => r != 0.0
    case NegativeZero => false
    case Str(s) => s != ""
    case Arr(items) => items != []
    case Obj(fields) => fields != map[]
  }

  function Get(fields: View, key: string): Json {
    if key in fields then fields[key] else Null
  }

  /** str(value or ""). */
  function TextOf(t: Text, v: Json): string {
    if Truthy(v) then t.show(v) else ""
  }

  // ---------------------------------------------------------------- unit scope

  /** The texts of what a value iterates over; None where it cannot be iterated over. */
  function Members(t: Text, v: Json): Option<set<string>> {
    match v
    case Arr(items) => Some(set i | 0 <= i < |items| :: t.show(items[i]))
    case Str(s) => Some(set i | 0 <= i < |s| :: t.show(Str([s[i]])))
    case Obj(fields) => Some(set k | k in fields :: t.show(Str(k)))
    case _ => None
  }

  /** The units whose text stays: the dependencies and, for a revision, the current unit. */
  function KeptUnits(t: Text, scope: View, operation: string): Option<set<string>> {
    match Members(t, if "dependency_unit_keys" in scope then scope["dependency_unit_keys"] else Arr([]))
    case None => None
    case Some(dependencies) =>
      Some(dependencies + if operation == "revise_unit" then {TextOf(t, Get(scope, "current_unit_key"))} else {})
  }

  /** The text of a confirmed unit is taken out. */
  predicate Externalized(t: Text, keep: set<string>, item: Json) {
    item.Obj? && TextOf(t, Get(item.fields, "unit_key")) !in keep && Truthy(Get(item.fields, "markdown"))
  }

  function ReduceItem(t: Text, keep: set<string>, item: Json): Json {
    if Externalized(t, keep, item) then Obj(item.fields["markdown" := Str("")]) else item
  }

  function ReduceItems(t: Text, keep: set<string>, items: seq<Json>): seq<Json> {
    if items == [] then []
    else
      var last := items[|items| - 1];
      ReduceItems(t, keep, items[..|items| - 1]) + if last.Obj? then [ReduceItem(t, keep, last)] else []
  }

  function ReduceScope(t: Text, scope: View, operation: string): Option<View> {
    if !Get(scope, "confirmed_context").Arr? then Some(scope)
    else
      match KeptUnits(t, scope, operation)
      case None => None
      case Some(keep) => Some(scope["confirmed_context" := Arr(ReduceItems(t, keep, scope["confirmed_context"].items))])
  }

  method ReduceUnitScope(t: Text, scope: View, operation: string) returns (r: Option<View>)
    ensures r == ReduceScope(t, scope, operation)
  {
    if !Get(scope, "confirmed_context").Arr? {
      return Some(scope);
    }
    var keep := KeptUnits(t, scope, operation);
    if keep.None? {
      return None;
    }
    var items, output := scope["confirmed_context"].items, [];
    for i := 0 to |items|
      invariant output == ReduceItems(t, keep.value, items[..i])
    {
      assert items[..i + 1][..i] == items[..i];
      if items[i].Obj? {
        output := output + [ReduceItem(t, keep.value, items[i])];
      }
    }
    assert items[..|items|] == items;
    return Some(scope["confirmed_context" := Arr(output)]);
  }

  /** Nothing of the scope is taken out: there are no confirmed units, or all are objects and each is kept or has no
      text. */
  predicate ScopeUntouched(t: Text, scope: View, operation: string) {
    Get(scope, "confirmed_context").Arr? && KeptUnits(t, scope, operation).Some? ==>
      forall i | 0 <= i < |scope["confirmed_context"].items| ::
        && scope["confirmed_context"].items[i].Obj?
        && !Externalized(t, KeptUnits(t, scope, operation).value, scope["confirmed_context"].items[i])
  }

  lemma {:induction false} ReduceItemsShrinks(t: Text, keep: set<string>, items: seq<Json>)
    ensures |ReduceItems(t, keep, items)| <= |items|
    ensures ReduceItems(t, keep, items) == items <==>
              forall i | 0 <= i < |items| :: items[i].Obj? && !Externalized(t, keep, items[i])
  {
    if items != [] {
      var front, last := items[..|items| - 1], items[|items| - 1];
      ReduceItemsShrinks(t, keep, front);
      assert items == front + [last];
      var reduced := ReduceItems(t, keep, front);
      if last.Obj? {
        assert reduced + [ReduceItem(t, keep, last)] == front + [last] ==>
                 reduced == front && ReduceItem(t, keep, last) == last by {
          if reduced + [ReduceItem(t, keep, last)] == front + [last] {
            assert (reduced + [ReduceItem(t, keep, last)])[..|reduced|] == reduced
                   && (front + [last])[..|front|] == front;
          }
        }
      }
    }
  }

  lemma ScopeChanges(t: Text, scope: View, operation: string)
    requires ReduceScope(t, scope, operation).Some?
    ensures ReduceScope(t, scope, operation).value == scope <==> ScopeUntouched(t, scope, operation)
  {
    if Get(scope, "confirmed_context").Arr? {
      var keep, items := KeptUnits(t, scope, operation).value, scope["confirmed_context"].items;
      ReduceItemsShrinks(t, keep, items);
      var reduced := scope["confirmed_context" := Arr(ReduceItems(t, keep, items))];
      assert reduced["confirmed_context"] == Arr(ReduceItems(t, keep, items));
      assert ReduceItems(t, keep, items) == items ==> reduced == scope;
    }
  }

  /** Iterating over the value gives one that reads as the name. */
  ghost predicate Names(t: Text, v: Json, name: string) {
    match v
    case Arr(items) => exists i :: 0 <= i < |items| && t.show(items[i]) == name
    case Str(s) => exists i :: 0 <= i < |s| && t.show(Str([s[i]])) == name
    case Obj(fields) => exists k :: k in fields && t.show(Str(k)) == name
    case _ => false
  }

  /** The value under the key reads as the text; one that is missing, null or empty reads as the empty text. */
  ghost predicate Reads(t: Text, fields: View, key: string, text: string) {
    if key in fields && Truthy(fields[key]) then t.show(fields[key]) == text else text == ""
  }

  /** A unit whose text the operation needs: one that is depended on or, for a revision, the current one. */
  ghost predicate Needed(t: Text, scope: View, operation: string, unit: View) {
    exists key ::
      && Reads(t, unit, "unit_key", key)
      && (|| ("dependency_unit_keys" in scope && Names(t, scope["dependency_unit_keys"], key))
          || (operation == "revise_unit" && Reads(t, scope, "current_unit_key", key)))
  }

  /** The values that are objects. */
  function Objects(items: seq<Json>): seq<View> {
    if items == [] then []
    else Objects(items[..|items| - 1])
         + if items[|items| - 1].Obj? then [items[|items| - 1].fields] else []
  }

  lemma {:induction false} ItemsAre(t: Text, keep: set<string>, items: seq<Json>)
    ensures |ReduceItems(t, keep, items)| == |Objects(items)|
    ensures forall i | 0 <= i < |Objects(items)| ::
              ReduceItems(t, keep, items)[i] == ReduceItem(t, keep, Obj(Objects(items)[i]))
  {
    if items != [] {
      ItemsAre(t, keep, items[..|items| - 1]);
    }
  }

  lemma KeptIsNeeded(t: Text, scope: View, operation: string, unit: View)
    requires KeptUnits(t, scope, operation).Some?
    ensures TextOf(t, Get(unit, "unit_key")) in KeptUnits(t, scope, operation).value <==>
              Needed(t, scope, operation, unit)
  {
    var key := TextOf(t, Get(unit, "unit_key"));
    assert Reads(t, unit, "unit_key", key);
    assert Reads(t, scope, "current_unit_key", TextOf(t, Get(scope, "current_unit_key")));
    if "dependency_unit_keys" in scope {
      MembersAreNamed(t, scope["dependency_unit_keys"], key);
    }
  }

  lemma MembersAreNamed(t: Text, v: Json, name: string)
    requires Members(t, v).Some?
    ensures name in Members(t, v).value <==> Names(t, v, name)
  {
  }

  /** What is left of a unit scope: the confirmed units that are objects, in order, each as it was but for the text of a
      unit that the operation does not need, which is emptied. */
  lemma ScopeIs(t: Text, scope: View, operation: string, i: nat)
    requires ReduceScope(t, scope, operation).Some?
    requires "confirmed_context" in scope && scope["confirmed_context"].Arr?
    requires i < |Objects(scope["confirmed_context"].items)|
    ensures var r, units := ReduceScope(t, scope, operation).value, Objects(scope["confirmed_context"].items);
            && r.Keys == scope.Keys && (forall k | k in scope && k != "confirmed_context" :: r[k] == scope[k])
            && r["confirmed_context"].Arr? && |r["confirmed_context"].items| == |units|
            && r["confirmed_context"].items[i]
                 == if "markdown" in units[i] && Truthy(units[i]["markdown"]) && !Needed(t, scope, operation, units[i])
                    then Obj(units[i]["markdown" := Str("")]) else Obj(units[i])
  {
    var items, keep := scope["confirmed_context"].items, KeptUnits(t, scope, operation).value;
    ItemsAre(t, keep, items);
    KeptIsNeeded(t, scope, operation, Objects(items)[i]);
    assert ReduceScope(t, scope, operation).value["confirmed_context"].items == ReduceItems(t, keep, items);
  }

  /** A unit scope cannot be read exactly if it has confirmed units and dependencies that cannot be iterated over. */
  lemma UnreadableIff(t: Text, scope: View, operation: string)
    ensures ReduceScope(t, scope, operation) == None <==>
              && "confirmed_context" in scope && scope["confirmed_context"].Arr? && "dependency_unit_keys" in scope
              && var v := scope["dependency_unit_keys"]; !v.Arr? && !v.Str? && !v.Obj?
  {
  }

  // ---------------------------------------------------------------- recent items

  /** Each item once, where it comes first. */
  function Unique(items: seq<Json>): seq<Json> {
    if items == [] then []
    else
      var front := Unique(items[..|items| - 1]);
      if items[|items| - 1] in front then front else front + [items[|items| - 1]]
  }

  method Dedupe(items: seq<Json>) returns (output: seq<Json>)
    ensures output == Unique(items)
  {
    output := [];
    var seen := {};
    for i := 0 to |items|
      invariant output == Unique(items[..i]) && forall x :: x in seen <==> x in output
    {
      assert items[..i + 1][..i] == items[..i];
      if items[i] !in seen {
        seen := seen + {items[i]};
        output := output + [items[i]];
      }
    }
    assert items[..|items|] == items;
  }

  function Last(items: seq<Json>, n: Positive): seq<Json> {
    if |items| <= n then items else items[|items| - n..]
  }

  function Recent(v: Json, n: Positive): Json {
    if v.Arr? then Arr(Last(Unique(v.items), n)) else v
  }

  predicate Distinct(items: seq<Json>) {
    forall i, j | 0 <= i < j < |items| :: items[i] != items[j]
  }

  lemma {:induction false} UniqueHolds(items: seq<Json>)
    ensures Distinct(Unique(items)) && |Unique(items)| <= |items| && forall x :: x in Unique(items) <==> x in items
    ensures Distinct(items) <==> Unique(items) == items
  {
    if items != [] {
      var front, last := items[..|items| - 1], items[|items| - 1];
      UniqueHolds(front);
      assert items == front + [last];
    }
  }

  /** No equal item comes before. */
  ghost predicate New(items: seq<Json>, i: int) {
    0 <= i < |items| && forall j | 0 <= j < i :: items[j] != items[i]
  }

  /** The kept items are the new ones at the given places, in order. */
  ghost predicate Places(items: seq<Json>, kept: seq<Json>, at: seq<int>) {
    && |at| == |kept| && (forall i | 0 <= i < |at| :: New(items, at[i]) && items[at[i]] == kept[i])
    && (forall i, j | 0 <= i < j < |at| :: at[i] < at[j])
  }

  lemma NewInPrefix(items: seq<Json>, n: nat, i: int)
    requires n <= |items| && i < n
    ensures New(items, i) <==> New(items[..n], i)
  {
  }

  lemma NewAtEnd(items: seq<Json>, n: nat)
    requires n == |items| - 1
    ensures New(items, n) <==> items[n] !in items[..n]
  {
  }

  lemma PlacesInPrefix(items: seq<Json>, n: nat, kept: seq<Json>, at: seq<int>)
    requires n <= |items| && Places(items[..n], kept, at)
    ensures Places(items, kept, at)
  {
    forall i | 0 <= i < |at| ensures New(items, at[i]) && items[at[i]] == kept[i] {
      NewInPrefix(items, n, at[i]);
    }
  }

  lemma PlacesAdd(items: seq<Json>, kept: seq<Json>, at: seq<int>, n: int)
    requires Places(items, kept, at) && New(items, n) && forall i | 0 <= i < |at| :: at[i] < n
    ensures Places(items, kept + [items[n]], at + [n])
  {
  }

  lemma PlacesFrom(items: seq<Json>, kept: seq<Json>, at: seq<int>, k: nat)
    requires Places(items, kept, at) && k <= |at|
    ensures Places(items, kept[k..], at[k..])
    ensures forall x, i | x in at && k <= i < |at| :: x in at[k..] || x < at[i]
  {
    forall j, i | 0 <= j < |at| && k <= i < |at| ensures at[j] in at[k..] || at[j] < at[i] {
      if k <= j {
        assert at[k..][j - k] == at[j];
      }
    }
  }

  lemma {:induction false} UniqueIs(items: seq<Json>) returns (at: seq<int>)
    ensures Places(items, Unique(items), at) && forall i | New(items, i) :: i in at
  {
    at := [];
    if items != [] {
      var n := |items| - 1;
      at := UniqueIs(items[..n]);
      UniqueHolds(items[..n]);
      forall i | New(items, i) && i != n ensures i in at {
        NewInPrefix(items, n, i);
      }
      NewAtEnd(items, n);
      assert forall i | 0 <= i < |at| :: New(items[..n], at[i]);
      PlacesInPrefix(items, n, Unique(items[..n]), at);
      if New(items, n) {
        PlacesAdd(items, Unique(items[..n]), at, n);
        at := at + [n];
      }
    }
  }

  /** The list kept: each item once, at the place where it is new, in their order and as many as the limit allows; a new
      item is dropped only if the list is full and all that are kept come after it. */
  lemma RecentIs(items: seq<Json>, n: Positive) returns (at: seq<int>)
    ensures Recent(Arr(items), n).Arr? && Places(items, Recent(Arr(items), n).items, at) && |at| <= n
    ensures forall i | New(items, i) && i !in at :: |at| == n && forall k | 0 <= k < n :: i < at[k]
  {
    var all := UniqueIs(items);
    if |all| <= n {
      return all;
    }
    PlacesFrom(items, Unique(items), all, |all| - n);
    return all[|all| - n..];
  }

  /** A list stays as it is exactly when it has no duplicates and is not too long. */
  lemma RecentChanges(v: Json, n: Positive)
    ensures Recent(v, n) == v <==> !v.Arr? || (Distinct(v.items) && |v.items| <= n)
  {
    if v.Arr? {
      UniqueHolds(v.items);
      if Last(Unique(v.items), n) == v.items {
        assert |Unique(v.items)| == |v.items|;
      }
    }
  }

  lemma RecentIsExtractive(v: Json, n: Positive)
    ensures Extractive(Recent(v, n), v)
  {
    if v.Arr? {
      UniqueHolds(v.items);
      var recent := Last(Unique(v.items), n);
      forall i | 0 <= i < |recent| ensures Has(v.items, recent[i]) {
        assert recent[i] in Unique(v.items);
        var j :| 0 <= j < |v.items| && v.items[j] == recent[i];
        PyEqReflexive(v.items[j]);
      }
    } else {
      ExtractiveReflexive(v);
    }
  }

  // ---------------------------------------------------------------- the whole reduction

  /** The limit on a list of the payload, if it has one. */
  function LimitOf(limits: Limits, key: string): Option<Positive> {
    if key == "observations" || key == "evidence" then Some(limits.observations)
    else if key == "prior_actions" then Some(limits.priorActions)
    else None
  }

  /** What becomes of a value before optional strings are bounded; None where the unit scope cannot be read. */
  function Reduced(t: Text, operation: string, limits: Limits, key: string, v: Json): Option<Json> {
    if key == "unit_scope" then
      if !v.Obj? then Some(v)
      else
        match ReduceScope(t, v.fields, operation)
        case None => None
        case Some(scope) => Some(Obj(scope))
    else if LimitOf(limits, key).Some? then Some(Recent(v, LimitOf(limits, key).value))
    else Some(v)
  }

  /** A mandatory value is left alone. */
  predicate Untouched(t: Text, operation: string, limits: Limits, key: string, v: Json) {
    && (key == "unit_scope" && v.Obj? ==> ScopeUntouched(t, v.fields, operation))
    && (LimitOf(limits, key).Some? && v.Arr? ==> Distinct(v.items) && |v.items| <= LimitOf(limits, key).value)
  }

  /** Exactly which values the reduction changes. */
  lemma ReducedChanges(t: Text, operation: string, limits: Limits, key: string, v: Json)
    requires Reduced(t, operation, limits, key, v).Some?
    ensures Reduced(t, operation, limits, key, v) == Some(v) <==> Untouched(t, operation, limits, key, v)
  {
    if key == "unit_scope" {
      assert LimitOf(limits, key).None?;
      if v.Obj? {
        ScopeChanges(t, v.fields, operation);
      }
    } else if LimitOf(limits, key).Some? {
      RecentChanges(v, LimitOf(limits, key).value);
    }
  }

  predicate Reducible(t: Text, operation: string, limits: Limits, payload: View) {
    forall k | k in payload :: Reduced(t, operation, limits, k, payload[k]).Some?
  }

  function Deterministic(t: Text, operation: string, limits: Limits, payload: View, mandatory: set<string>): View
    requires Reducible(t, operation, limits, payload)
  {
    map k | k in payload ::
      var v := Reduced(t, operation, limits, k, payload[k]).value;
      if k in mandatory then v else t.shorten(v)
  }

  /** The reduction as the program runs it: the unit scope, then the three lists, then the optional strings. */
  method DeterministicReduce(t: Text, operation: string, limits: Limits, payload: View, mandatory: set<string>)
    returns (r: Option<View>)
    ensures r.Some? <==> Reducible(t, operation, limits, payload)
    ensures r.Some? ==> r.value == Deterministic(t, operation, limits, payload, mandatory)
  {
    var scoped := ReduceScopeOf(t, operation, payload);
    if scoped.None? {
      assert Reduced(t, operation, limits, "unit_scope", payload["unit_scope"]).None?;
      return None;
    }
    var reduced := ReduceLists(limits, scoped.value);
    assert LimitOf(limits, "unit_scope").None?;
    assert forall k | k in payload :: Reduced(t, operation, limits, k, payload[k]) == Some(reduced[k]);
    r := Some(map k | k in reduced :: if k in mandatory then reduced[k] else t.shorten(reduced[k]));
  }

  method ReduceScopeOf(t: Text, operation: string, payload: View) returns (r: Option<View>)
    ensures r.None? <==>
            && "unit_scope" in payload && payload["unit_scope"].Obj?
            && ReduceScope(t, payload["unit_scope"].fields, operation).None?
    ensures r.Some? ==> r.value.Keys == payload.Keys && forall k | k in payload ::
              r.value[k] == if k == "unit_scope" && payload[k].Obj?
                            then Obj(ReduceScope(t, payload[k].fields, operation).value)
                            else payload[k]
  {
    if !Get(payload, "unit_scope").Obj? {
      return Some(payload);
    }
    var scope := ReduceUnitScope(t, payload["unit_scope"].fields, operation);
    if scope.None? {
      return None;
    }
    return Some(payload["unit_scope" := Obj(scope.value)]);
  }

  method ReduceLists(limits: Limits, view: View) returns (r: View)
    ensures r.Keys == view.Keys
    ensures forall k | k in view ::
              r[k] == if LimitOf(limits, k).Some? then Recent(view[k], LimitOf(limits, k).value) else view[k]
  {
    r := ReduceList(view, "observations", limits.observations);
    r := ReduceList(r, "evidence", limits.observations);
    r := ReduceList(r, "prior_actions", limits.priorActions);
  }

  method ReduceList(view: View, key: string, n: Positive) returns (r: View)
    ensures r == if key in view then view[key := Recent(view[key], n)] else view
  {
    r := view;
    if Get(view, key).Arr? {
      var unique := Dedupe(view[key].items);
      r := view[key := Arr(Last(unique, n))];
    } else if key in view {
      assert view[key := view[key]] == view;
    }
  }

  /** The reduction keeps a mandatory value if and only if it has nothing to take out of it: mandatory evidence loses
      its duplicates and its oldest items, and a mandatory unit scope the texts of units that are not depended on. */
  lemma MandatoryIsKeptIff(t: Text, operation: string, limits: Limits, payload: View, mandatory: set<string>, k: string)
    requires Reducible(t, operation, limits, payload) && k in payload && k in mandatory
    ensures Deterministic(t, operation, limits, payload, mandatory)[k] == payload[k] <==>
              Untouched(t, operation, limits, k, payload[k])
  {
    assert Reduced(t, operation, limits, k, payload[k]).Some?;
    ReducedChanges(t, operation, limits, k, payload[k]);
  }
}
