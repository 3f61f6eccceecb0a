/** The entity values the listing operations build, and what they are built from. */
module Listings {
  import opened Outcomes
  import opened Payloads

  /** A job, view or node handle; only its identifying name is modelled. */
  datatype Job = Job(name: string)
  datatype View = View(name: string)
  datatype Node = Node(displayName: string)

  /** $entry->key as a name. */
  function NameOf(entry: Json, key: string): string {
    Text(Member(entry, key))
  }

  /** The names the entries carry under key. */
  function NameSet(es: seq<Json>, key: string): (r: set<string>)
    ensures forall n :: n in r <==> exists i :: 0 <= i < |es| && NameOf(es[i], key) == n
  {
    if es == [] then {} else NameSet(es[..|es| - 1], key) + {NameOf(es[|es| - 1], key)}
  }

  /** One more listed entry adds its name to the set. */
  lemma NameSetExtend(es: seq<Json>, i: nat, key: string)
    requires i < |es|
    ensures NameSet(es[..i + 1], key) == NameSet(es[..i], key) + {NameOf(es[i], key)}
  {
    assert es[..i + 1][..i] == es[..i];
  }

  predicate DistinctNames(es: seq<Json>, key: string) {
    forall i, j :: 0 <= i < j < |es| ==> NameOf(es[i], key) != NameOf(es[j], key)
  }

  /** Adding one entry keeps the names distinct exactly when its name is new. */
  lemma DistinctStep(es: seq<Json>, key: string)
    requires es != []
    ensures DistinctNames(es, key) <==>
              DistinctNames(es[..|es| - 1], key) && NameOf(es[|es| - 1], key) !in NameSet(es[..|es| - 1], key)
  {
    var n := |es|;
    var init := es[..n - 1];
    var x := NameOf(es[n - 1], key);
    assert forall i :: 0 <= i < n - 1 ==> init[i] == es[i];
    if DistinctNames(init, key) && x !in NameSet(init, key) {
      forall i, j | 0 <= i < j < n ensures NameOf(es[i], key) != NameOf(es[j], key) {
        if j == n - 1 {
          assert NameOf(init[i], key) in NameSet(init, key);
        } else {
          assert NameOf(init[i], key) != NameOf(init[j], key);
        }
      }
    } else if x in NameSet(init, key) {
      var i :| 0 <= i < n - 1 && NameOf(init[i], key) == x;
      assert NameOf(es[i], key) == NameOf(es[n - 1], key);
    } else {
      var i, j :| 0 <= i < j < n - 1 && NameOf(init[i], key) == NameOf(init[j], key);
      assert NameOf(es[i], key) == NameOf(es[j], key);
    }
  }

  /** A map keyed by name has one entry per listed entry exactly when no name repeats; repeats overwrite. */
  lemma {:induction false} NameSetSize(es: seq<Json>, key: string)
    ensures |NameSet(es, key)| <= |es|
    ensures |NameSet(es, key)| == |es| <==> DistinctNames(es, key)
  {
    if es != [] {
      var init := es[..|es| - 1];
      NameSetSize(init, key);
      DistinctStep(es, key);
      assert NameSet(es, key) == NameSet(init, key) + {NameOf(es[|es| - 1], key)};
    }
  }

  /** getPrimaryView: a view exactly when the property exists, even when its value is null. */
  function PrimaryView(fields: map<string, Json>): (r: Option<View>)
    ensures r.None? <==> "primaryView" !in fields
    ensures r.Some? ==> r.value == View(NameOf(fields["primaryView"], "name"))
  {
    if "primaryView" in fields then Some(View(NameOf(fields["primaryView"], "name"))) else None
  }

  /** property_exists is true for a null value: the view then has the empty name. */
  lemma NullPrimaryViewIsAView(fields: map<string, Json>)
    requires "primaryView" in fields && fields["primaryView"] == JNull
    ensures PrimaryView(fields) == Some(View(""))
  {
  }
}
