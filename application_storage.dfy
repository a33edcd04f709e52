/**
 * The application store: saved applications kept as one list under a single storage key.
 * What the key holds is modelled as a value (absent, unreadable, or a list of records); the
 * clock, the random id suffix and whether writing succeeds are parameters.
 */
module ApplicationStorage {
  import opened Common
  import opened Strings
  import opened Records
  import LoanCalculations

  datatype ApplicationStatus = Pending | Approved | Rejected

  /** Why an application was rejected: the last reply shown, its fallback, or the eligibility justification. */
  datatype RejectionReason =
    | LastReply(text: Text)
    | ApplicationRejected
    | EligibilityJustification(justification: LoanCalculations.Justification)

  /** `ApplicationRecord`. */
  datatype ApplicationRecord = ApplicationRecord(
    id: string,
    data: ApplicationData,
    status: ApplicationStatus,
    sanctionData: Option<SanctionData>,
    rejectionReason: Option<RejectionReason>,
    createdAt: string,
    updatedAt: string)

  /** What the storage key holds: nothing, text that does not parse, or a list of records. */
  datatype Stored = Absent | Unreadable | Records(applications: seq<ApplicationRecord>)

  /** `getAllApplications`: the stored list, or an empty list when nothing readable is stored. */
  function AllOf(stored: Stored): (apps: seq<ApplicationRecord>)
    ensures stored.Records? ==> apps == stored.applications
    ensures !stored.Records? ==> apps == []
  {
    match stored
    case Records(applications) => applications
    case _ => []
  }

  /** `APP-<milliseconds>-<suffix>`. */
  function NewId(millis: nat, suffix: string): string {
    "APP-" + NatString(millis) + "-" + suffix
  }

  /** After the `APP-` prefix the clock reading reads back as a number, and the id ends in the suffix. */
  lemma NewIdReadsBack(millis: nat, suffix: string)
    ensures var id := NewId(millis, suffix);
            && "APP-" <= id
            && ParseInt(id[4..]) == Some(millis)
            && |suffix| <= |id| && id[|id| - |suffix|..] == suffix
  {
    var id := NewId(millis, suffix);
    assert id[4..] == NatString(millis) + ("-" + suffix);
    ParseIntOfNumeral(millis, "-" + suffix);
  }

  /** The id is an injective encoding: it determines the clock reading and the suffix it was made from. */
  lemma IdDeterminesClockAndSuffix(m1: nat, s1: string, m2: nat, s2: string)
    requires NewId(m1, s1) == NewId(m2, s2)
    ensures m1 == m2 && s1 == s2
  {
    var t1 := NatString(m1) + ("-" + s1);
    var t2 := NatString(m2) + ("-" + s2);
    assert NewId(m1, s1) == "APP-" + t1;
    assert NewId(m2, s2) == "APP-" + t2;
    assert t1 == NewId(m1, s1)[4..];
    assert t2 == NewId(m2, s2)[4..];
    ParseIntOfNumeral(m1, "-" + s1);
    ParseIntOfNumeral(m2, "-" + s2);
    assert m1 == m2;
    assert t1[|NatString(m1)| + 1..] == s1;
    assert t2[|NatString(m2)| + 1..] == s2;
  }

  /** The record `saveApplication` builds, with one clock reading for both timestamps. */
  function NewRecord(id: string, data: ApplicationData, status: ApplicationStatus,
                     sanctionData: Option<SanctionData>, reason: Option<RejectionReason>, now: string): (r: ApplicationRecord)
    ensures r.id == id && r.createdAt == r.updatedAt == now
  {
    ApplicationRecord(id, data, status, sanctionData, reason, now, now)
  }

  /** The storage after appending `rec` to whatever list could be read. */
  function Appended(stored: Stored, rec: ApplicationRecord): (s: Stored)
    ensures AllOf(s) == AllOf(stored) + [rec]
  {
    Records(AllOf(stored) + [rec])
  }

  /** `applications.find(app => app.id === id) || null`. */
  function FindById(apps: seq<ApplicationRecord>, id: string): (r: Option<ApplicationRecord>)
    ensures r.None? <==> forall k :: 0 <= k < |apps| ==> apps[k].id != id
    ensures r.Some? ==> exists k :: 0 <= k < |apps| && apps[k] == r.value && r.value.id == id
                                    && forall j :: 0 <= j < k ==> apps[j].id != id
  {
    if apps == [] then None
    else if apps[0].id == id then Some(apps[0])
    else
      var r := FindById(apps[1..], id);
      assert forall k :: 1 <= k < |apps| ==> apps[k] == apps[1..][k - 1];
      r
  }

  /** `applications.findIndex(app => app.id === id)`: the first index with that id, or −1. */
  function IndexOf(apps: seq<ApplicationRecord>, id: string): (i: int)
    ensures -1 <= i < |apps|
    ensures i == -1 <==> forall k :: 0 <= k < |apps| ==> apps[k].id != id
    ensures i >= 0 ==> apps[i].id == id && forall k :: 0 <= k < i ==> apps[k].id != id
  {
    if apps == [] then -1
    else if apps[0].id == id then 0
    else
      var i := IndexOf(apps[1..], id);
      assert forall k :: 1 <= k < |apps| ==> apps[k] == apps[1..][k - 1];
      if i == -1 then -1 else i + 1
  }

  /** `applications.filter(app => app.id !== id)`. */
  function WithoutId(apps: seq<ApplicationRecord>, id: string): (r: seq<ApplicationRecord>)
    ensures |r| <= |apps|
    ensures forall k :: 0 <= k < |r| ==> r[k].id != id && r[k] in apps
    ensures forall x :: x in apps && x.id != id ==> x in r
  {
    if apps == [] then []
    else (if apps[0].id == id then [] else [apps[0]]) + WithoutId(apps[1..], id)
  }

  /** `{ ...record, ...updates, updatedAt: now }`: each field the patch names replaces the record's. */
  datatype Patch = Patch(
    id: Option<string>,
    data: Option<ApplicationData>,
    status: Option<ApplicationStatus>,
    sanctionData: Option<Option<SanctionData>>,
    rejectionReason: Option<Option<RejectionReason>>,
    createdAt: Option<string>)

  function Merge(rec: ApplicationRecord, updates: Patch, now: string): (r: ApplicationRecord)
    ensures r.updatedAt == now
    ensures updates.id.None? ==> r.id == rec.id
    ensures updates.createdAt.None? ==> r.createdAt == rec.createdAt
    ensures updates.id.Some? ==> r.id == updates.id.value
    ensures updates.data.Some? ==> r.data == updates.data.value
    ensures updates.data.None? ==> r.data == rec.data
    ensures updates.status.Some? ==> r.status == updates.status.value
    ensures updates.status.None? ==> r.status == rec.status
    ensures updates.sanctionData.Some? ==> r.sanctionData == updates.sanctionData.value
    ensures updates.sanctionData.None? ==> r.sanctionData == rec.sanctionData
    ensures updates.rejectionReason.Some? ==> r.rejectionReason == updates.rejectionReason.value
    ensures updates.rejectionReason.None? ==> r.rejectionReason == rec.rejectionReason
    ensures updates.createdAt.Some? ==> r.createdAt == updates.createdAt.value
    ensures updates == Patch(None, None, None, None, None, None) ==> r == rec.(updatedAt := now)
  {
    ApplicationRecord(
      if updates.id.Some? then updates.id.value else rec.id,
      if updates.data.Some? then updates.data.value else rec.data,
      if updates.status.Some? then updates.status.value else rec.status,
      if updates.sanctionData.Some? then updates.sanctionData.value else rec.sanctionData,
      if updates.rejectionReason.Some? then updates.rejectionReason.value else rec.rejectionReason,
      if updates.createdAt.Some? then updates.createdAt.value else rec.createdAt,
      now)
  }

  // ---------------------------------------------------------------- the store

  class ApplicationStore {
    var stored: Stored

    /** Nothing stored yet. */
    constructor()
      ensures stored == Absent
    {
      stored := Absent;
    }

    /** `getAllApplications`. */
    function All(): (apps: seq<ApplicationRecord>)
      reads this
      ensures apps == AllOf(stored)
    {
      AllOf(stored)
    }

    /**
     * `saveApplication`: append one record carrying a fresh id and return the id. When writing
     * fails the call throws: modelled as `None`, with the storage untouched.
     */
    method SaveApplication(data: ApplicationData, status: ApplicationStatus, sanctionData: Option<SanctionData>,
                           rejectionReason: Option<RejectionReason>, millis: nat, suffix: string, now: string,
                           writable: bool)
      returns (id: Option<string>)
      modifies this
      ensures writable ==> id == Some(NewId(millis, suffix))
      ensures writable ==> stored == Appended(old(stored), NewRecord(id.value, data, status, sanctionData, rejectionReason, now))
      ensures !writable ==> id.None? && stored == old(stored)
    {
      var newId := NewId(millis, suffix);
      var application := NewRecord(newId, data, status, sanctionData, rejectionReason, now);
      var applications := All();
      applications := applications + [application];
      if !writable {
        id := None;
        return;
      }
      stored := Records(applications);
      id := Some(newId);
    }

    /** `getApplicationById`: a scan for the first record with that id. */
    method GetApplicationById(id: string) returns (r: Option<ApplicationRecord>)
      ensures r == FindById(All(), id)
    {
      var applications := All();
      var i := 0;
      while i < |applications|
        invariant 0 <= i <= |applications|
        invariant FindById(applications, id) == FindById(applications[i..], id)
      {
        if applications[i].id == id {
          return Some(applications[i]);
        }
        assert applications[i..][1..] == applications[i + 1..];
        i := i + 1;
      }
      return None;
    }

    /**
     * `updateApplication`: merge the patch into the first record with that id and report
     * success; an absent id, or a failed write, changes nothing and reports failure.
     */
    method UpdateApplication(id: string, updates: Patch, now: string, writable: bool) returns (ok: bool)
      modifies this
      ensures ok <==> IndexOf(old(All()), id) != -1 && writable
      ensures ok ==> stored == Records(old(All())[IndexOf(old(All()), id) := Merge(old(All())[IndexOf(old(All()), id)], updates, now)])
      ensures !ok ==> stored == old(stored)
    {
      var applications := All();
      var index := IndexOf(applications, id);
      if index == -1 {
        return false;
      }
      applications := applications[index := Merge(applications[index], updates, now)];
      if !writable {
        return false;
      }
      stored := Records(applications);
      return true;
    }

    /** `deleteApplication`: keep every record with another id, in order; a failed write reports failure. */
    method DeleteApplication(id: string, writable: bool) returns (ok: bool)
      modifies this
      ensures ok == writable
      ensures ok ==> stored == Records(WithoutId(old(All()), id))
      ensures !ok ==> stored == old(stored)
    {
      var filtered := WithoutId(All(), id);
      if !writable {
        return false;
      }
      stored := Records(filtered);
      return true;
    }
  }

  // ---------------------------------------------------------------- properties of the list operations

  /** A saved record is what a later lookup of its id returns, unless an earlier record already had that id. */
  lemma {:induction false} SavedRecordIsFound(apps: seq<ApplicationRecord>, rec: ApplicationRecord)
    ensures FindById(apps + [rec], rec.id) == if FindById(apps, rec.id).Some? then FindById(apps, rec.id) else Some(rec)
  {
    if apps != [] {
      assert (apps + [rec])[1..] == apps[1..] + [rec];
      SavedRecordIsFound(apps[1..], rec);
    }
  }

  /** Lookup and `findIndex` agree: the record found is the one at the first matching index. */
  lemma {:induction false} FindByIdAtIndexOf(apps: seq<ApplicationRecord>, id: string)
    ensures IndexOf(apps, id) == -1 ==> FindById(apps, id) == None
    ensures IndexOf(apps, id) >= 0 ==> FindById(apps, id) == Some(apps[IndexOf(apps, id)])
  {
    if apps != [] && apps[0].id != id {
      FindByIdAtIndexOf(apps[1..], id);
    }
  }

  /** After an update that keeps the id, a lookup returns the merged record. */
  lemma UpdatedRecordIsFound(apps: seq<ApplicationRecord>, id: string, updates: Patch, now: string)
    requires IndexOf(apps, id) != -1 && updates.id.None?
    ensures var i := IndexOf(apps, id);
            FindById(apps[i := Merge(apps[i], updates, now)], id) == Some(Merge(apps[i], updates, now))
  {
    var i := IndexOf(apps, id);
    var merged := Merge(apps[i], updates, now);
    var updated := apps[i := merged];
    assert updated[i].id == id;
    FirstMatchIsIndexOf(updated, id, i);
    FindByIdAtIndexOf(updated, id);
  }

  /** The first index holding `id` is the one `findIndex` returns. */
  lemma FirstMatchIsIndexOf(apps: seq<ApplicationRecord>, id: string, i: int)
    requires 0 <= i < |apps| && apps[i].id == id
    requires forall k :: 0 <= k < i ==> apps[k].id != id
    ensures IndexOf(apps, id) == i
  {
    var j := IndexOf(apps, id);
    assert j != -1 by {
      assert apps[i].id == id;
    }
  }

  /** Filtering distributes over concatenation, so the survivors keep their order. */
  lemma {:induction false} WithoutIdAppend(a: seq<ApplicationRecord>, b: seq<ApplicationRecord>, id: string)
    ensures WithoutId(a + b, id) == WithoutId(a, id) + WithoutId(b, id)
  {
    if a == [] {
      assert a + b == b;
    } else {
      assert (a + b)[1..] == a[1..] + b;
      WithoutIdAppend(a[1..], b, id);
    }
  }

  /** After a delete nothing with that id is found, and records with other ids still are. */
  lemma DeletedIsGone(apps: seq<ApplicationRecord>, id: string, other: string)
    requires other != id
    ensures FindById(WithoutId(apps, id), id) == None
    ensures FindById(apps, other).Some? ==> FindById(WithoutId(apps, id), other).Some?
  {
    if FindById(apps, other).Some? {
      var x := FindById(apps, other).value;
      assert x in apps;
      assert x in WithoutId(apps, id);
    }
  }
}
