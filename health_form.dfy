/**
 * The health profile form of YourDrugs/HealthFormView.swift: the
 * replace-all `saveHealthInfo` over the Core Data context and the
 * "Latest data" section.
 */
module HealthForm {
  import opened Wrappers

  /**
   * A `HealthInfo` managed object: its identity in the context and its two
   * optional string attributes.
   */
  datatype HealthInfo = HealthInfo(objectID: nat, allergies: Option<string>, chronicDiseases: Option<string>)

  ghost predicate DistinctIDs(infos: seq<HealthInfo>)
  {
    forall i, j :: 0 <= i < j < |infos| ==> infos[i].objectID != infos[j].objectID
  }

  /** The records of `infos` other than the object `id`, in order. */
  function Without(infos: seq<HealthInfo>, id: nat): (r: seq<HealthInfo>)
    ensures forall k :: 0 <= k < |r| ==> r[k].objectID != id && r[k] in infos
    ensures forall x :: x in infos && x.objectID != id ==> x in r
    ensures |r| <= |infos|
  {
    if infos == [] then []
    else
      var rest := Without(infos[1..], id);
      assert forall x :: x in infos ==> x == infos[0] || x in infos[1..];
      if infos[0].objectID == id then rest else [infos[0]] + rest
  }

  /** Deleting keeps the identities distinct. */
  lemma {:induction false} WithoutKeepsDistinct(infos: seq<HealthInfo>, id: nat)
    requires DistinctIDs(infos)
    ensures DistinctIDs(Without(infos, id))
  {
    if infos != [] {
      WithoutKeepsDistinct(infos[1..], id);
      var rest := Without(infos[1..], id);
      assert forall k :: 0 <= k < |rest| ==> rest[k] in infos[1..];
      assert forall k :: 0 <= k < |rest| ==> rest[k].objectID != infos[0].objectID;
    }
  }

  /** Deleting an object that is not there changes nothing. */
  lemma {:induction false} WithoutAbsent(infos: seq<HealthInfo>, id: nat)
    requires forall k :: 0 <= k < |infos| ==> infos[k].objectID != id
    ensures Without(infos, id) == infos
  {
    if infos != [] {
      WithoutAbsent(infos[1..], id);
      assert [infos[0]] + infos[1..] == infos;
    }
  }

  /** With distinct identities, deleting the first object removes exactly it. */
  lemma WithoutFirst(infos: seq<HealthInfo>)
    requires DistinctIDs(infos) && infos != []
    ensures Without(infos, infos[0].objectID) == infos[1..]
  {
    WithoutAbsent(infos[1..], infos[0].objectID);
  }

  /** `latest.allergies ?? "-"`. */
  function OrDash(value: Option<string>): (shown: string)
    ensures value.Some? ==> shown == value.value
    ensures value.None? ==> shown == "-"
  {
    if value.Some? then value.value else "-"
  }

  /** A dash is shown exactly for a missing attribute or one whose text is itself "-". */
  lemma OrDashShowsMissing(value: Option<string>)
    ensures OrDash(value) == "-" <==> value == None || value == Some("-")
    ensures value.Some? ==> OrDash(value) == value.value
  {
  }

  /** The two lines of the "Latest data" section. */
  datatype LatestLines = LatestLines(allergiesLine: string, diseasesLine: string)

  /** The "Latest data" section: absent for an empty list, else built from the last record. */
  function LatestSection(infos: seq<HealthInfo>): (r: Option<LatestLines>)
    ensures r.Some? <==> infos != []
    ensures r.Some? ==>
              r.value.allergiesLine == "Allergies: " + OrDash(infos[|infos| - 1].allergies) &&
              r.value.diseasesLine == "Diseases: " + OrDash(infos[|infos| - 1].chronicDiseases)
  {
    if infos == [] then None
    else
      var latest := infos[|infos| - 1];
      Some(LatestLines("Allergies: " + OrDash(latest.allergies), "Diseases: " + OrDash(latest.chronicDiseases)))
  }

  /** After a save the section shows the typed inputs verbatim, never a dash for a missing value. */
  lemma LatestAfterSave(id: nat, allergies: string, chronicDiseases: string)
    ensures LatestSection([HealthInfo(id, Some(allergies), Some(chronicDiseases))])
         == Some(LatestLines("Allergies: " + allergies, "Diseases: " + chronicDiseases))
  {
  }

  /**
   * The view's state: `context` is what the fetch request lists (the
   * managed object context, pending changes included), `persisted` is the
   * last successfully saved store, and the two `@State` input fields.
   */
  class HealthFormView {
    var context: seq<HealthInfo>
    var persisted: seq<HealthInfo>
    var nextID: nat
    var allergies: string
    var chronicDiseases: string

    ghost predicate Valid()
      reads this
    {
      DistinctIDs(context) && forall k :: 0 <= k < |context| ==> context[k].objectID < nextID
    }

    /**
     * A new view over the app's shared context: `listed` is what the
     * context holds (pending changes of an earlier failed save included),
     * `stored` what was last saved.
     */
    constructor (listed: seq<HealthInfo>, stored: seq<HealthInfo>, freshID: nat)
      requires DistinctIDs(listed)
      requires forall k :: 0 <= k < |listed| ==> listed[k].objectID < freshID
      ensures Valid()
      ensures context == listed && persisted == stored && nextID == freshID
      ensures allergies == "" && chronicDiseases == ""
    {
      context := listed;
      persisted := stored;
      nextID := freshID;
      allergies := "";
      chronicDiseases := "";
    }

    /** `viewContext.delete(info)`. */
    method Delete(info: HealthInfo)
      requires Valid()
      modifies this`context
      ensures Valid()
      ensures context == Without(old(context), info.objectID)
      ensures forall x :: x in context <==> x in old(context) && x.objectID != info.objectID
    {
      WithoutKeepsDistinct(context, info.objectID);
      context := Without(context, info.objectID);
    }

    /**
     * `saveHealthInfo`: delete every listed record, insert one holding the
     * inputs, save; only a successful save persists and clears the inputs.
     */
    method SaveHealthInfo(saveSucceeds: bool)
      requires Valid()
      modifies this
      ensures Valid()
      ensures nextID == old(nextID) + 1
      ensures context == [HealthInfo(old(nextID), Some(old(allergies)), Some(old(chronicDiseases)))]
      ensures LatestSection(context) == Some(LatestLines("Allergies: " + old(allergies), "Diseases: " + old(chronicDiseases)))
      ensures saveSucceeds ==> persisted == context && allergies == "" && chronicDiseases == ""
      ensures !saveSucceeds ==>
                persisted == old(persisted) && allergies == old(allergies) && chronicDiseases == old(chronicDiseases)
    {
      var healthInfos := context;
      var i := 0;
      while i < |healthInfos|
        invariant 0 <= i <= |healthInfos|
        invariant context == healthInfos[i..]
        invariant Valid() && nextID == old(nextID)
        invariant persisted == old(persisted)
        invariant allergies == old(allergies) && chronicDiseases == old(chronicDiseases)
      {
        WithoutFirst(healthInfos[i..]);
        Delete(healthInfos[i]);
        assert healthInfos[i..][1..] == healthInfos[i + 1..];
        i := i + 1;
      }

      var newInfo := HealthInfo(nextID, Some(allergies), Some(chronicDiseases));
      context := context + [newInfo];
      nextID := nextID + 1;

      if saveSucceeds {
        persisted := context;
        allergies := "";
        chronicDiseases := "";
      }
    }
  }
}
