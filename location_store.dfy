/**
 * src/stores/location-store.ts: the persisted location (coordinates and
 * an optional name), the GPS switch and its status, and the list of saved
 * places with add, update and remove by id.
 *
 * crypto.randomUUID() is a parameter of addSavedLocation: the caller hands
 * in the new id.
 */
module LocationStore {
  import opened Common
  import opened Types

  datatype GpsStatus = Idle | Requesting | Granted | Denied | Error

  const DEFAULT_LATITUDE: real := 40.7128
  const DEFAULT_LONGITUDE: real := -73.906
  const DEFAULT_NAME: string := "New York, NY"

  /** `{ ...location, id }`: the draft under the given id. */
  function WithId(draft: LocationDraft, id: string): (l: SavedLocation)
    ensures l.id == id
    ensures LocationDraft(l.name, l.latitude, l.longitude) == draft
  {
    SavedLocation(id, draft.name, draft.latitude, draft.longitude)
  }

  /** No two saved places share an id. */
  predicate DistinctIds(list: seq<SavedLocation>) {
    forall i, j :: 0 <= i < j < |list| ==> list[i].id != list[j].id
  }

  /** No saved place has this id. */
  predicate FreshId(list: seq<SavedLocation>, id: string) {
    forall l :: l in list ==> l.id != id
  }

  function IdOf(): SavedLocation -> string {
    (l: SavedLocation) => l.id
  }

  // ---------------------------------------------------------------------
  // addSavedLocation

  /** Appending a draft under a fresh id keeps the ids distinct. */
  lemma AddKeepsIdsDistinct(list: seq<SavedLocation>, draft: LocationDraft, id: string)
    requires DistinctIds(list) && FreshId(list, id)
    ensures DistinctIds(list + [WithId(draft, id)])
  {
    var r := list + [WithId(draft, id)];
    forall i, j | 0 <= i < j < |r|
      ensures r[i].id != r[j].id
    {
      if j == |list| {
        assert r[i] in list;
      }
    }
  }

  // ---------------------------------------------------------------------
  // updateSavedLocation

  /** The `map` callback: an entry with the id becomes the draft under that id. */
  function ReplaceMatching(id: string, draft: LocationDraft): SavedLocation -> SavedLocation {
    (l: SavedLocation) => if l.id == id then WithId(draft, id) else l
  }

  function Updated(list: seq<SavedLocation>, id: string, draft: LocationDraft): seq<SavedLocation> {
    Map(list, ReplaceMatching(id, draft))
  }

  /**
   * The list keeps its length, its order and every id; each entry with the
   * id holds the draft, every other entry is untouched.
   */
  lemma UpdatedShape(list: seq<SavedLocation>, id: string, draft: LocationDraft)
    ensures |Updated(list, id, draft)| == |list|
    ensures Map(Updated(list, id, draft), IdOf()) == Map(list, IdOf())
    ensures forall i :: 0 <= i < |list| && list[i].id == id ==> Updated(list, id, draft)[i] == WithId(draft, id)
    ensures forall i :: 0 <= i < |list| && list[i].id != id ==> Updated(list, id, draft)[i] == list[i]
  {
    var r := Updated(list, id, draft);
    assert forall i :: 0 <= i < |list| ==> Map(r, IdOf())[i] == Map(list, IdOf())[i];
  }

  /** An unknown id changes nothing. */
  lemma UpdateUnknownIsNoOp(list: seq<SavedLocation>, id: string, draft: LocationDraft)
    requires FreshId(list, id)
    ensures Updated(list, id, draft) == list
  {
    var r := Updated(list, id, draft);
    forall i | 0 <= i < |list|
      ensures r[i] == list[i]
    {
      assert list[i] in list;
    }
  }

  /** Updating twice with the same draft is updating once. */
  lemma UpdateIdempotent(list: seq<SavedLocation>, id: string, draft: LocationDraft)
    ensures Updated(Updated(list, id, draft), id, draft) == Updated(list, id, draft)
  {
    var once := Updated(list, id, draft);
    var twice := Updated(once, id, draft);
    forall i | 0 <= i < |list|
      ensures twice[i] == once[i]
    {
    }
  }

  /** The ids are unchanged, so they stay distinct. */
  lemma UpdateKeepsIdsDistinct(list: seq<SavedLocation>, id: string, draft: LocationDraft)
    requires DistinctIds(list)
    ensures DistinctIds(Updated(list, id, draft))
  {
    var r := Updated(list, id, draft);
    forall i, j | 0 <= i < j < |r|
      ensures r[i].id != r[j].id
    {
      assert r[i].id == list[i].id && r[j].id == list[j].id;
    }
  }

  // ---------------------------------------------------------------------
  // removeSavedLocation

  /** The `filter` callback: every entry whose id differs. */
  function KeepsOther(id: string): SavedLocation -> bool {
    (l: SavedLocation) => l.id != id
  }

  function Removed(list: seq<SavedLocation>, id: string): seq<SavedLocation> {
    Filter(list, KeepsOther(id))
  }

  /** What is left is exactly the entries with another id. */
  lemma RemovedExactly(list: seq<SavedLocation>, id: string, l: SavedLocation)
    ensures l in Removed(list, id) <==> l in list && l.id != id
  {
    if l in list && l.id != id {
      FilterComplete(list, KeepsOther(id), l);
    }
  }

  /** Removal works piecewise, so the entries kept stay in their order. */
  lemma RemovedKeepsOrder(front: seq<SavedLocation>, back: seq<SavedLocation>, id: string)
    ensures Removed(front + back, id) == Removed(front, id) + Removed(back, id)
  {
    FilterAppend(front, back, KeepsOther(id));
  }

  /** An unknown id changes nothing. */
  lemma {:induction false} RemoveUnknownIsNoOp(list: seq<SavedLocation>, id: string)
    requires FreshId(list, id)
    ensures Removed(list, id) == list
  {
    if |list| > 0 {
      assert Last(list) in list;
      assert forall l :: l in Init(list) ==> l in list;
      RemoveUnknownIsNoOp(Init(list), id);
      assert list == Init(list) + [Last(list)];
    }
  }

  /** Removing what was just added under a fresh id restores the list. */
  lemma RemoveUndoesAdd(list: seq<SavedLocation>, draft: LocationDraft, id: string)
    requires FreshId(list, id)
    ensures Removed(list + [WithId(draft, id)], id) == list
  {
    RemovedKeepsOrder(list, [WithId(draft, id)], id);
    RemoveUnknownIsNoOp(list, id);
    assert Init([WithId(draft, id)]) == [];
  }

  /** A kept subsequence of distinct ids is distinct. */
  lemma {:induction false} RemoveKeepsIdsDistinct(list: seq<SavedLocation>, id: string)
    requires DistinctIds(list)
    ensures DistinctIds(Removed(list, id))
  {
    if |list| > 0 {
      var front := Init(list);
      var last := Last(list);
      assert DistinctIds(front) by {
        assert forall i :: 0 <= i < |front| ==> front[i] == list[i];
      }
      RemoveKeepsIdsDistinct(front, id);
      var kept := Removed(front, id);
      if last.id != id {
        forall l | l in kept
          ensures l.id != last.id
        {
          RemovedExactly(front, id, l);
          var i :| 0 <= i < |front| && front[i] == l;
          assert list[i] == l && list[|list| - 1] == last;
        }
        var r := kept + [last];
        assert Removed(list, id) == r;
        forall i, j | 0 <= i < j < |r|
          ensures r[i].id != r[j].id
        {
          if j == |kept| {
            assert r[i] in kept;
          }
        }
      }
    }
  }

  // ---------------------------------------------------------------------
  // The store

  class Locations {
    var latitude: real
    var longitude: real
    var name: Option<string>
    var gpsEnabled: bool
    var gpsStatus: GpsStatus
    var savedLocations: seq<SavedLocation>

    /** initialState: New York, GPS on and idle, nothing saved. */
    constructor()
      ensures latitude == DEFAULT_LATITUDE && longitude == DEFAULT_LONGITUDE && name == Some(DEFAULT_NAME)
      ensures gpsEnabled && gpsStatus == Idle && savedLocations == []
    {
      latitude, longitude, name := DEFAULT_LATITUDE, DEFAULT_LONGITUDE, Some(DEFAULT_NAME);
      gpsEnabled, gpsStatus, savedLocations := true, Idle, [];
    }

    /** setLocation: the coordinates and the name, None when the caller gives none. */
    method SetLocation(lat: real, lon: real, newName: Option<string>)
      modifies this
      ensures latitude == lat && longitude == lon && name == newName
      ensures gpsEnabled == old(gpsEnabled) && gpsStatus == old(gpsStatus) && savedLocations == old(savedLocations)
    {
      latitude, longitude, name := lat, lon, newName;
    }

    method SetGpsEnabled(enabled: bool)
      modifies this
      ensures gpsEnabled == enabled
      ensures latitude == old(latitude) && longitude == old(longitude) && name == old(name)
      ensures gpsStatus == old(gpsStatus) && savedLocations == old(savedLocations)
    {
      gpsEnabled := enabled;
    }

    method SetGpsStatus(status: GpsStatus)
      modifies this
      ensures gpsStatus == status
      ensures latitude == old(latitude) && longitude == old(longitude) && name == old(name)
      ensures gpsEnabled == old(gpsEnabled) && savedLocations == old(savedLocations)
    {
      gpsStatus := status;
    }

    /** resetToDefault: every field back to the initial state, the saved places included. */
    method ResetToDefault()
      modifies this
      ensures latitude == DEFAULT_LATITUDE && longitude == DEFAULT_LONGITUDE && name == Some(DEFAULT_NAME)
      ensures gpsEnabled && gpsStatus == Idle && savedLocations == []
    {
      latitude, longitude, name := DEFAULT_LATITUDE, DEFAULT_LONGITUDE, Some(DEFAULT_NAME);
      gpsEnabled, gpsStatus, savedLocations := true, Idle, [];
    }

    /** addSavedLocation: one entry more, at the end, under the id handed in. */
    method AddSavedLocation(draft: LocationDraft, id: string)
      modifies this
      ensures savedLocations == old(savedLocations) + [WithId(draft, id)]
      ensures old(DistinctIds(savedLocations)) && old(FreshId(savedLocations, id)) ==> DistinctIds(savedLocations)
      ensures latitude == old(latitude) && longitude == old(longitude) && name == old(name)
      ensures gpsEnabled == old(gpsEnabled) && gpsStatus == old(gpsStatus)
    {
      if DistinctIds(savedLocations) && FreshId(savedLocations, id) {
        AddKeepsIdsDistinct(savedLocations, draft, id);
      }
      savedLocations := savedLocations + [WithId(draft, id)];
    }

    /** updateSavedLocation: every entry with the id replaced by the draft under that id. */
    method UpdateSavedLocation(id: string, draft: LocationDraft)
      modifies this
      ensures savedLocations == Updated(old(savedLocations), id, draft)
      ensures old(DistinctIds(savedLocations)) ==> DistinctIds(savedLocations)
      ensures latitude == old(latitude) && longitude == old(longitude) && name == old(name)
      ensures gpsEnabled == old(gpsEnabled) && gpsStatus == old(gpsStatus)
    {
      if DistinctIds(savedLocations) {
        UpdateKeepsIdsDistinct(savedLocations, id, draft);
      }
      savedLocations := Map(savedLocations, ReplaceMatching(id, draft));
    }

    /** removeSavedLocation: every entry with the id dropped. */
    method RemoveSavedLocation(id: string)
      modifies this
      ensures savedLocations == Removed(old(savedLocations), id)
      ensures old(DistinctIds(savedLocations)) ==> DistinctIds(savedLocations)
      ensures latitude == old(latitude) && longitude == old(longitude) && name == old(name)
      ensures gpsEnabled == old(gpsEnabled) && gpsStatus == old(gpsStatus)
    {
      if DistinctIds(savedLocations) {
        RemoveKeepsIdsDistinct(savedLocations, id);
      }
      savedLocations := Filter(savedLocations, KeepsOther(id));
    }
  }
}
