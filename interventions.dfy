/** The intervention table of the prediction page
    (pages/PredictionDetailPage.tsx): a JavaScript object from intervention
    name to effectiveness percentage. Its entries are kept in insertion order,
    because that is the order `Object.entries` lists them in the prompt:
    assigning an existing key keeps its position, a new key is appended, and
    `delete` removes the key so that a later assignment appends it again.
    (JavaScript lists integer-like keys first; the only keys the page uses
    are the offered intervention names, none of which starts with a digit.) */
module Interventions {
  import opened Wrappers
  import opened Strings

  /** The entries of the object, in insertion order. */
  type Table = seq<(string, int)>

  /** The value a newly enabled intervention starts at. */
  const DefaultEffectiveness: int := 50

  /** `Object.keys(t)`. */
  function Keys(t: Table): (r: seq<string>)
    ensures |r| == |t| && forall i :: 0 <= i < |t| ==> r[i] == t[i].0
  {
    if |t| == 0 then [] else [t[0].0] + Keys(t[1..])
  }

  /** Object keys are unique: no key occurs again after its entry. Every
      table the page builds has this property. */
  predicate UniqueKeys(t: Table) {
    |t| == 0 || (t[0].0 !in Keys(t[1..]) && UniqueKeys(t[1..]))
  }

  /** Every effectiveness value lies in [0, 100]. */
  predicate InRange(t: Table) {
    forall i :: 0 <= i < |t| ==> 0 <= t[i].1 <= 100
  }

  /** The position of key `k`: the first entry carrying it. */
  function IndexOf(t: Table, k: string): (r: nat)
    requires k in Keys(t)
    ensures r < |t| && t[r].0 == k
    ensures forall j :: 0 <= j < r ==> t[j].0 != k
  {
    if t[0].0 == k then 0 else 1 + IndexOf(t[1..], k)
  }

  /** `t[k]`, or `None` when `t.hasOwnProperty(k)` is false. */
  function Lookup(t: Table, k: string): (r: Option<int>)
    ensures r.None? <==> k !in Keys(t)
    ensures r.Some? ==> r == Some(t[IndexOf(t, k)].1)
  {
    if |t| == 0 then None
    else if t[0].0 == k then Some(t[0].1)
    else Lookup(t[1..], k)
  }

  /** `delete copy[k]` on a copy of `t`: no entry for `k` is left, and the
      table is unchanged when `k` was absent. */
  function Remove(t: Table, k: string): (r: Table)
    ensures k !in Keys(r)
    ensures k !in Keys(t) ==> r == t
  {
    if |t| == 0 then []
    else
      var rest := Remove(t[1..], k);
      if t[0].0 == k then rest
      else
        assert Keys([t[0]] + rest) == [t[0].0] + Keys(rest);
        assert k !in Keys(t) ==> k !in Keys(t[1..]) by {
          assert Keys(t) == [t[0].0] + Keys(t[1..]);
        }
        assert t == [t[0]] + t[1..];
        [t[0]] + rest
  }

  /** In a table with unique keys, deleting a present key removes exactly its
      entry; the others keep their order. */
  lemma {:induction false} RemoveSplices(t: Table, k: string)
    requires UniqueKeys(t) && k in Keys(t)
    ensures Remove(t, k) == t[..IndexOf(t, k)] + t[IndexOf(t, k) + 1..]
  {
    if t[0].0 == k {
      assert IndexOf(t, k) == 0;
      assert t[..0] + t[1..] == t[1..];
      assert Remove(t, k) == Remove(t[1..], k) == t[1..];
    } else {
      var u := t[1..];
      assert k in Keys(u) by {
        assert Keys(t) == [t[0].0] + Keys(u);
      }
      RemoveSplices(u, k);
      var i := IndexOf(u, k);
      assert IndexOf(t, k) == i + 1;
      assert Remove(t, k) == [t[0]] + Remove(u, k);
      ConsSplice(t, i);
    }
  }

  /** Cutting position i + 1 out of `t` is cutting position i out of its tail,
      behind the head. */
  lemma ConsSplice(t: Table, i: nat)
    requires i + 1 < |t|
    ensures t[..i + 1] + t[i + 2..] == [t[0]] + (t[1..][..i] + t[1..][i + 1..])
  {
    assert t[..i + 1] == [t[0]] + t[1..][..i];
  }

  /** `copy[k] = v` (also `{...t, [k]: v}`): an existing key keeps its
      position and takes the new value; a new key is appended. */
  function Assign(t: Table, k: string, v: int): (r: Table)
    ensures k !in Keys(t) ==> r == t + [(k, v)]
    ensures k in Keys(t) ==> |r| == |t| && r[IndexOf(t, k)] == (k, v)
    ensures k in Keys(t) ==> forall i :: 0 <= i < |t| && i != IndexOf(t, k) ==> r[i] == t[i]
  {
    if |t| == 0 then [(k, v)]
    else if t[0].0 == k then [(k, v)] + t[1..]
    else [t[0]] + Assign(t[1..], k, v)
  }

  /** `handleInterventionToggle`: a present intervention is removed, an
      absent one is added at the default effectiveness. */
  function Toggle(t: Table, k: string): (r: Table)
    ensures k !in Keys(t) ==> r == t + [(k, DefaultEffectiveness)]
    ensures UniqueKeys(t) && k in Keys(t) ==> r == t[..IndexOf(t, k)] + t[IndexOf(t, k) + 1..]
    ensures k in Keys(r) <==> k !in Keys(t)
  {
    if k in Keys(t) then
      if UniqueKeys(t) then RemoveSplices(t, k); Remove(t, k) else Remove(t, k)
    else
      var r := Assign(t, k, DefaultEffectiveness);
      assert Keys(r)[|t|] == k;
      r
  }

  /** `Math.max(lo, Math.min(hi, v))` for `lo <= hi`: `v` brought into
      [lo, hi]; unchanged when already inside. */
  function Clamp(v: int, lo: int, hi: int): (r: int)
    requires lo <= hi
    ensures lo <= r <= hi
    ensures lo <= v <= hi ==> r == v
    ensures v < lo ==> r == lo
    ensures v > hi ==> r == hi
  {
    var m := if hi < v then hi else v;
    if lo > m then lo else m
  }

  /** `handleInterventionValueChange`: store the value clamped to [0, 100]. */
  function SetValue(t: Table, k: string, v: int): (r: Table)
    ensures Lookup(r, k) == Some(Clamp(v, 0, 100))
    ensures k in Keys(t) ==> Keys(r) == Keys(t)
    ensures k !in Keys(t) ==> r == t + [(k, Clamp(v, 0, 100))]
    ensures forall j :: j != k ==> Lookup(r, j) == Lookup(t, j)
  {
    var r := Assign(t, k, Clamp(v, 0, 100));
    assert k in Keys(r) by {
      if k in Keys(t) { assert Keys(r)[IndexOf(t, k)] == k; } else { assert Keys(r)[|t|] == k; }
    }
    assert k in Keys(t) ==> Keys(r) == Keys(t) by {
      if k in Keys(t) {
        assert forall i :: 0 <= i < |t| ==> Keys(r)[i] == Keys(t)[i];
      }
    }
    LookupAssignOther(t, k, Clamp(v, 0, 100));
    assert IndexOf(r, k) == if k in Keys(t) then IndexOf(t, k) else |t| by {
      AssignIndexOf(t, k, Clamp(v, 0, 100));
    }
    r
  }

  /** Assigning `k` does not move where `k` is found. */
  lemma {:induction false} AssignIndexOf(t: Table, k: string, v: int)
    ensures k in Keys(Assign(t, k, v))
    ensures IndexOf(Assign(t, k, v), k) == if k in Keys(t) then IndexOf(t, k) else |t|
  {
    var r := Assign(t, k, v);
    if |t| == 0 {
      assert Keys(r)[0] == k;
    } else if t[0].0 == k {
      assert Keys(r)[0] == k;
    } else {
      AssignIndexOf(t[1..], k, v);
      assert r[1..] == Assign(t[1..], k, v);
      assert Keys(r)[1..] == Keys(r[1..]);
      assert k in Keys(t) <==> k in Keys(t[1..]) by {
        assert Keys(t) == [t[0].0] + Keys(t[1..]);
      }
    }
  }

  /** Assigning `k` leaves the value of every other key as it was. */
  lemma {:induction false} LookupAssignOther(t: Table, k: string, v: int)
    ensures forall j :: j != k ==> Lookup(Assign(t, k, v), j) == Lookup(t, j)
  {
    if |t| > 0 && t[0].0 != k {
      LookupAssignOther(t[1..], k, v);
    }
  }

  /** Toggling an absent intervention twice gives back the table it started
      from: the same keys, values and order. */
  lemma ToggleTwiceRestores(t: Table, k: string)
    requires k !in Keys(t)
    ensures Toggle(Toggle(t, k), k) == t
  {
    var u := Toggle(t, k);
    assert u == t + [(k, DefaultEffectiveness)];
    assert Keys(u)[|t|] == k;
    assert UniqueKeys(u) ==> IndexOf(u, k) == |t|;
    assert u[..|t|] == t;
    RemoveLast(t, k, DefaultEffectiveness);
  }

  /** Deleting a key that was just appended removes the appended entry. */
  lemma {:induction false} RemoveLast(t: Table, k: string, v: int)
    requires k !in Keys(t)
    ensures Remove(t + [(k, v)], k) == t
  {
    if |t| == 0 {
      assert Remove([(k, v)], k) == Remove([], k);
    } else {
      assert (t + [(k, v)])[1..] == t[1..] + [(k, v)];
      assert Keys(t) == [t[0].0] + Keys(t[1..]);
      RemoveLast(t[1..], k, v);
      assert [t[0]] + t[1..] == t;
    }
  }

  /** The keys left after removing `k`: all the others. */
  lemma {:induction false} RemoveKeys(t: Table, k: string, j: string)
    ensures j in Keys(Remove(t, k)) <==> j in Keys(t) && j != k
  {
    if |t| > 0 {
      RemoveKeys(t[1..], k, j);
      assert Keys(t) == [t[0].0] + Keys(t[1..]);
      if t[0].0 != k {
        assert Keys(Remove(t, k)) == [t[0].0] + Keys(Remove(t[1..], k));
      }
    }
  }

  /** The keys after assigning `k`: the old ones and `k`. */
  lemma {:induction false} AssignKeys(t: Table, k: string, v: int, j: string)
    ensures j in Keys(Assign(t, k, v)) <==> j in Keys(t) || j == k
  {
    if |t| > 0 {
      AssignKeys(t[1..], k, v, j);
      assert Keys(t) == [t[0].0] + Keys(t[1..]);
      if t[0].0 != k {
        assert Keys(Assign(t, k, v)) == [t[0].0] + Keys(Assign(t[1..], k, v));
      } else {
        assert Keys(Assign(t, k, v)) == [k] + Keys(t[1..]);
      }
    } else {
      assert Keys([(k, v)]) == [k];
    }
  }

  /** Removing and assigning keep the keys unique. */
  lemma {:induction false} RemoveKeepsUnique(t: Table, k: string)
    requires UniqueKeys(t)
    ensures UniqueKeys(Remove(t, k))
  {
    if |t| > 0 {
      RemoveKeepsUnique(t[1..], k);
      RemoveKeys(t[1..], k, t[0].0);
    }
  }

  lemma {:induction false} AssignKeepsUnique(t: Table, k: string, v: int)
    requires UniqueKeys(t)
    ensures UniqueKeys(Assign(t, k, v))
  {
    if |t| == 0 {
      assert Assign(t, k, v)[1..] == [];
    } else if t[0].0 == k {
      assert Assign(t, k, v)[1..] == t[1..];
    } else {
      AssignKeepsUnique(t[1..], k, v);
      AssignKeys(t[1..], k, v, t[0].0);
      assert Assign(t, k, v)[1..] == Assign(t[1..], k, v);
    }
  }

  /** Removing and assigning a value in [0, 100] keep every value in range. */
  lemma {:induction false} RemoveInRange(t: Table, k: string)
    requires InRange(t)
    ensures InRange(Remove(t, k))
  {
    if |t| > 0 {
      RemoveInRange(t[1..], k);
    }
  }

  lemma AssignInRange(t: Table, k: string, v: int)
    requires InRange(t) && 0 <= v <= 100
    ensures InRange(Assign(t, k, v))
  {
    var r := Assign(t, k, v);
    if k in Keys(t) {
      forall i | 0 <= i < |r|
        ensures 0 <= r[i].1 <= 100
      {
        if i != IndexOf(t, k) {
          assert r[i] == t[i];
        }
      }
    }
  }

  /** Toggling and setting a value keep the keys unique and every value in
      [0, 100]: the invariant of the page's table. */
  lemma TogglePreserves(t: Table, k: string)
    requires UniqueKeys(t) && InRange(t)
    ensures UniqueKeys(Toggle(t, k)) && InRange(Toggle(t, k))
  {
    if k in Keys(t) {
      RemoveKeepsUnique(t, k);
      RemoveInRange(t, k);
    } else {
      AssignKeepsUnique(t, k, DefaultEffectiveness);
      AssignInRange(t, k, DefaultEffectiveness);
    }
  }

  lemma SetValuePreserves(t: Table, k: string, v: int)
    requires UniqueKeys(t) && InRange(t)
    ensures UniqueKeys(SetValue(t, k, v)) && InRange(SetValue(t, k, v))
  {
    AssignKeepsUnique(t, k, Clamp(v, 0, 100));
    AssignInRange(t, k, Clamp(v, 0, 100));
  }

  /** The interventions offered as check boxes. */
  const AllInterventions: seq<string> := [
    "Vaksinasi Massal",
    "Pembatasan Sosial",
    "Peningkatan Tes & Lacak",
    "Kampanye Kesehatan Masyarakat",
    "Peningkatan Sanitasi",
    "Pengendalian Vektor"
  ]

  /** Every offered intervention name is non-empty, holds no line break, and
      does not start with a digit. So none is an integer-like property key,
      which JavaScript would list before the others, and the prompt holds one
      line per enabled intervention. */
  lemma OfferedInterventionNames()
    ensures forall i :: 0 <= i < |AllInterventions| ==>
      && AllInterventions[i] != ""
      && !IsDigit(AllInterventions[i][0])
      && '\n' !in AllInterventions[i]
  {
  }

  /** Every key of the table is one of the offered interventions: the only
      names the check boxes and sliders pass to the handlers. */
  predicate OfferedOnly(t: Table) {
    forall j :: j in Keys(t) ==> IsOffered(j)
  }

  /** `name` is one of the check boxes' names. */
  predicate IsOffered(name: string) {
    name in AllInterventions
  }

  lemma ToggleKeepsOffered(t: Table, k: string)
    requires OfferedOnly(t) && k in AllInterventions
    ensures OfferedOnly(Toggle(t, k))
  {
    forall j | j in Keys(Toggle(t, k))
      ensures IsOffered(j)
    {
      if k in Keys(t) {
        RemoveKeys(t, k, j);
      } else {
        AssignKeys(t, k, DefaultEffectiveness, j);
      }
    }
  }

  lemma SetValueKeepsOffered(t: Table, k: string, v: int)
    requires OfferedOnly(t) && k in AllInterventions
    ensures OfferedOnly(SetValue(t, k, v))
  {
    forall j | j in Keys(SetValue(t, k, v))
      ensures IsOffered(j)
    {
      AssignKeys(t, k, Clamp(v, 0, 100), j);
    }
  }

  /** No offered name, so no key of a table the page can hold, contains a
      line break. */
  lemma OfferedKeysOneLine(t: Table)
    requires OfferedOnly(t)
    ensures forall i :: 0 <= i < |t| ==> '\n' !in t[i].0
  {
    OfferedInterventionNames();
    forall i | 0 <= i < |t|
      ensures '\n' !in t[i].0
    {
      assert Keys(t)[i] == t[i].0 && Keys(t)[i] in Keys(t);
      assert IsOffered(t[i].0);
      var k :| 0 <= k < |AllInterventions| && AllInterventions[k] == t[i].0;
    }
  }
}
