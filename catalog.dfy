/** The static disease catalog (constants.ts) and lookup by route id. */
module Catalog {
  import opened Wrappers
  import opened Types

  const DISEASES: seq<Disease> := [
    Disease("rabies", "Rabies",
      "Analisis dan prediksi penyebaran virus rabies pada hewan.",
      "bg-red-600", "red-400"),
    Disease("avian-flu", "Flu Burung",
      "Pantau dan prediksi wabah flu burung (H5N1) pada unggas.",
      "bg-blue-600", "blue-400"),
    Disease("leptospirosis", "Leptospirosis",
      "Prediksi risiko Leptospirosis berdasarkan data lingkungan.",
      "bg-yellow-500", "yellow-400"),
    Disease("anthrax", "Antraks",
      "Identifikasi potensi wabah Antraks pada ternak dan manusia.",
      "bg-green-600", "green-400"),
    Disease("covid-19", "COVID-19",
      "Analisis & prediksi penyebaran COVID-19 berdasarkan data & intervensi.",
      "bg-indigo-600", "indigo-400"),
    Disease("malaria", "Malaria",
      "Modelkan penyebaran Malaria berdasarkan data iklim dan kasus.",
      "bg-teal-600", "teal-400")
  ]

  /** Index `i` holds the first entry of `catalog` whose id is `id`. */
  predicate FirstMatchAt(catalog: seq<Disease>, id: string, i: nat) {
    && i < |catalog|
    && catalog[i].id == id
    && forall j :: 0 <= j < i ==> catalog[j].id != id
  }

  /** `catalog.find(d => d.id === id)`: the first entry with that id, or
      `None` when there is none. */
  function FindById(catalog: seq<Disease>, id: string): (r: Option<Disease>)
    ensures r.None? <==> forall i :: 0 <= i < |catalog| ==> catalog[i].id != id
    ensures r.Some? ==> exists i: nat :: FirstMatchAt(catalog, id, i) && catalog[i] == r.value
  {
    if |catalog| == 0 then None
    else if catalog[0].id == id then
      assert FirstMatchAt(catalog, id, 0);
      Some(catalog[0])
    else
      var r := FindById(catalog[1..], id);
      if r.Some? then
        var i: nat :| FirstMatchAt(catalog[1..], id, i) && catalog[1..][i] == r.value;
        assert FirstMatchAt(catalog, id, i + 1);
        r
      else
        r
  }

  /** No two entries share an id. */
  predicate DistinctIds(catalog: seq<Disease>) {
    forall i, j :: 0 <= i < j < |catalog| ==> catalog[i].id != catalog[j].id
  }

  /** With distinct ids the lookup finds the one entry carrying the id. */
  lemma {:induction false} FindByIdDistinct(catalog: seq<Disease>, k: nat)
    requires DistinctIds(catalog) && k < |catalog|
    ensures FindById(catalog, catalog[k].id) == Some(catalog[k])
  {
    if k > 0 {
      assert catalog[0].id != catalog[k].id;
      assert catalog[1..][k - 1] == catalog[k];
      FindByIdDistinct(catalog[1..], k - 1);
    }
  }

  function Ids(catalog: seq<Disease>): (r: seq<string>)
    ensures |r| == |catalog| && forall i :: 0 <= i < |r| ==> r[i] == catalog[i].id
  {
    if |catalog| == 0 then [] else [catalog[0].id] + Ids(catalog[1..])
  }

  /** The six ids, in this order. */
  lemma CatalogIds()
    ensures Ids(DISEASES) == ["rabies", "avian-flu", "leptospirosis", "anthrax", "covid-19", "malaria"]
  {
    var ids := Ids(DISEASES);
    assert |ids| == 6;
    assert ids[0] == "rabies" && ids[1] == "avian-flu" && ids[2] == "leptospirosis";
    assert ids[3] == "anthrax" && ids[4] == "covid-19" && ids[5] == "malaria";
  }

  /** Six entries with distinct ids, and every name and description non-empty. */
  lemma CatalogShape()
    ensures |DISEASES| == 6
    ensures DistinctIds(DISEASES)
    ensures forall i :: 0 <= i < |DISEASES| ==> DISEASES[i].name != "" && DISEASES[i].description != ""
  {
    var lengths := [6, 9, 13, 7, 8, 7];
    assert forall i :: 0 <= i < 6 ==> |DISEASES[i].id| == lengths[i];
    assert DISEASES[3].id[0] != DISEASES[5].id[0];
  }

  /** Example lookups: "avian-flu" is Flu Burung and "anthrax" is Antraks. */
  lemma CatalogLookups()
    ensures FindById(DISEASES, "avian-flu").Some? && FindById(DISEASES, "avian-flu").value.name == "Flu Burung"
    ensures FindById(DISEASES, "anthrax").Some? && FindById(DISEASES, "anthrax").value.name == "Antraks"
  {
    CatalogShape();
    CatalogIds();
    FindByIdDistinct(DISEASES, 1);
    FindByIdDistinct(DISEASES, 3);
  }

  /** An id is found exactly when it is one of the catalog's ids, and then
      the entry found is in the catalog and carries it. */
  lemma FindInCatalog(catalog: seq<Disease>, id: string)
    ensures FindById(catalog, id).None? <==> id !in Ids(catalog)
    ensures FindById(catalog, id).Some? ==> FindById(catalog, id).value in catalog
    ensures FindById(catalog, id).Some? ==> FindById(catalog, id).value.id == id
  {
    var ids := Ids(catalog);
    if id in ids {
      var k :| 0 <= k < |ids| && ids[k] == id;
      assert catalog[k].id == id;
    }
  }
}
