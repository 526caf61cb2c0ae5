/** The diagnostic script that lists the boundary-file features with no
    usable ISO alpha-3 code, in file order, by their display name. */
module FindMissing {
  import opened JsValues
  import opened GeoJson

  /** `!iso_a3 || iso_a3 === "-99" || iso_a3 === "UNKNOWN"`. */
  predicate Flagged(p: Properties) {
    !TruthyString(p.isoA3) || p.isoA3 == Some("-99") || p.isoA3 == Some("UNKNOWN")
  }

  /** The name recorded for a feature, `ADMIN || NAME` (possibly undefined). */
  function NameOf(p: Properties): (r: MaybeString)
    ensures TruthyString(p.admin) ==> r == p.admin
    ensures !TruthyString(p.admin) ==> r == p.name
  {
    OrString(p.admin, p.name)
  }

  /** The indices of the flagged features, in increasing order: the reference
      the collection loop is checked against. */
  ghost function FlaggedIndices(features: seq<Feature>): (idx: seq<nat>)
    requires forall i :: 0 <= i < |features| ==> features[i].properties.Some?
    ensures forall j :: 0 <= j < |idx| ==> idx[j] < |features| && Flagged(features[idx[j]].properties.value)
    ensures forall j, l :: 0 <= j < l < |idx| ==> idx[j] < idx[l]
    ensures forall i :: 0 <= i < |features| && Flagged(features[i].properties.value) ==> i in idx
  {
    if features == [] then []
    else
      var n := |features| - 1;
      var init := FlaggedIndices(features[..n]);
      if Flagged(features[n].properties.value) then init + [n] else init
  }

  /** The names the forEach pushes, as a left fold; a feature without
      properties makes `props.ISO_A3` throw. */
  function ProblemNames(features: seq<Feature>): (r: Result<seq<MaybeString>, JsError>)
    ensures r.Ok? <==> forall i :: 0 <= i < |features| ==> features[i].properties.Some?
  {
    if features == [] then Ok([])
    else
      var n := |features| - 1;
      match ProblemNames(features[..n])
      case Err(e) => Err(e)
      case Ok(names) =>
        if features[n].properties.None? then Err(TypeError("Cannot read properties of null (reading 'ISO_A3')"))
        else if Flagged(features[n].properties.value) then Ok(names + [NameOf(features[n].properties.value)])
        else Ok(names)
  }

  /** `names[j]` is the name of feature `idx[j]`, for every `j`. */
  predicate NamesOf(names: seq<MaybeString>, idx: seq<nat>, features: seq<Feature>) {
    |names| == |idx| &&
    forall j :: 0 <= j < |idx| ==>
      idx[j] < |features| && features[idx[j]].properties.Some? &&
      names[j] == NameOf(features[idx[j]].properties.value)
  }

  /** The list holds the names of exactly the flagged features, in file order;
      so its length, the reported total, is the number of flagged features. */
  lemma {:induction false} ProblemNamesAreFlagged(features: seq<Feature>)
    requires forall i :: 0 <= i < |features| ==> features[i].properties.Some?
    ensures NamesOf(ProblemNames(features).value, FlaggedIndices(features), features)
  {
    if features != [] {
      var n := |features| - 1;
      var init := features[..n];
      ProblemNamesAreFlagged(init);
      var names0 := ProblemNames(init).value;
      var idx0 := FlaggedIndices(init);
      NamesOfPrefix(names0, idx0, features, n);
      if Flagged(features[n].properties.value) {
        NamesOfSnoc(names0, idx0, features, n);
      }
    }
  }

  /** Names checked against a prefix of the features hold for all of them. */
  lemma NamesOfPrefix(names: seq<MaybeString>, idx: seq<nat>, features: seq<Feature>, n: nat)
    requires n <= |features| && NamesOf(names, idx, features[..n])
    ensures NamesOf(names, idx, features)
  {
    forall j | 0 <= j < |idx|
      ensures features[idx[j]] == features[..n][idx[j]]
    {
    }
  }

  /** Appending a feature's name and index keeps the lists in step. */
  lemma NamesOfSnoc(names: seq<MaybeString>, idx: seq<nat>, features: seq<Feature>, i: nat)
    requires NamesOf(names, idx, features)
    requires i < |features| && features[i].properties.Some?
    ensures NamesOf(names + [NameOf(features[i].properties.value)], idx + [i], features)
  {
  }

  /** The collection loop. It returns the list and the printed total. */
  method CollectProblemCountries(features: seq<Feature>) returns (r: Result<seq<MaybeString>, JsError>, total: nat)
    ensures r == ProblemNames(features)
    ensures r.Ok? ==> total == |FlaggedIndices(features)|
  {
    var problemCountries: seq<MaybeString> := [];
    var i := 0;
    while i < |features|
      invariant i <= |features|
      invariant ProblemNames(features[..i]) == Ok(problemCountries)
    {
      assert features[..i + 1][..i] == features[..i];
      var props := features[i].properties;
      if props.None? {
        r, total := Err(TypeError("Cannot read properties of null (reading 'ISO_A3')")), 0;
        assert ProblemNames(features[..i + 1]).Err?;
        ProblemNamesErrPersists(features, i + 1);
        return;
      }
      if Flagged(props.value) {
        problemCountries := problemCountries + [NameOf(props.value)];
      }
      i := i + 1;
    }
    assert features[..i] == features;
    r, total := Ok(problemCountries), |problemCountries|;
    ProblemNamesAreFlagged(features);
  }

  /** Once the fold has thrown on a prefix, it throws on the whole list with
      the same error. */
  lemma {:induction false} ProblemNamesErrPersists(features: seq<Feature>, k: nat)
    requires k <= |features| && ProblemNames(features[..k]).Err?
    ensures ProblemNames(features) == ProblemNames(features[..k])
    decreases |features| - k
  {
    if k < |features| {
      assert features[..k + 1][..k] == features[..k];
      ProblemNamesErrPersists(features, k + 1);
    } else {
      assert features[..k] == features;
    }
  }
}
