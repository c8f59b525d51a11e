/**
 * The two documents of one state location: the provider's and its operating mode's, the adoption
 * of a persisted provider id, and what a successor recovers.
 */
module Persistence {
  import opened Collections
  import opened ProviderModel

  datatype StateKey = ProviderKey | ModeKey

  /** The fields the mode's `save_state` writes, the warm list included; an absent network id is None. */
  datatype ModeFields = ModeFields(
    resources: map<ResourceId, Status>, warmInstances: seq<ResourceId>,
    vpcId: Option<string>, subnetId: Option<string>, securityGroupId: Option<string>, initialized: bool)

  datatype Document =
    | ProviderDoc(providerId: string, state: ProviderState)
    | ModeDoc(providerId: string, mode: ModeFields)

  type Documents = map<StateKey, Document>

  /** Writing one key leaves the other keys of the store untouched. */
  class StateStore {
    var docs: Documents

    constructor ()
      ensures docs == map[]
    {
      docs := map[];
    }

    /** A failed save raises in the store and is logged by the caller. */
    method SaveState(key: StateKey, doc: Document, ok: bool)
      modifies this
      ensures docs == if ok then old(docs)[key := doc] else old(docs)
    {
      if ok {
        docs := docs[key := doc];
      }
    }

    method LoadState(key: StateKey) returns (doc: Option<Document>)
      ensures doc == Lookup(docs, key)
    {
      doc := if key in docs then Some(docs[key]) else None;
    }
  }

  function Lookup(docs: Documents, key: StateKey): Option<Document> {
    if key in docs then Some(docs[key]) else None
  }

  /** `_adopt_persisted_provider_id`: the first document carrying another id decides. */
  method AdoptPersistedProviderId(store: StateStore, own: string) returns (id: string)
    ensures id == Adopted(store.docs, own)
    ensures ProviderKey in store.docs && store.docs[ProviderKey].providerId !in {"", own} ==>
              id == store.docs[ProviderKey].providerId
    ensures (ProviderKey in store.docs ==> store.docs[ProviderKey].providerId in {"", own}) ==>
              id == if ModeKey in store.docs && store.docs[ModeKey].providerId != ""
                    then store.docs[ModeKey].providerId else own
  {
    id := own;
    var keys := [ProviderKey, ModeKey];
    for i := 0 to |keys|
      invariant id == own
      invariant forall k :: 0 <= k < i ==> !Names(store.docs, keys[k], own)
    {
      var doc := store.LoadState(keys[i]);
      if doc.Some? && doc.value.providerId != "" && doc.value.providerId != own {
        id := doc.value.providerId;
        assert i == 1 ==> !Names(store.docs, keys[0], own);
        return;
      }
    }
    assert !Names(store.docs, keys[0], own) && !Names(store.docs, keys[1], own);
  }

  predicate Names(docs: Documents, key: StateKey, own: string) {
    key in docs && docs[key].providerId != "" && docs[key].providerId != own
  }

  function Adopted(docs: Documents, own: string): string {
    if Names(docs, ProviderKey, own) then docs[ProviderKey].providerId
    else if Names(docs, ModeKey, own) then docs[ModeKey].providerId
    else own
  }

  /** What the provider's `_load_state` makes of the store: its own document, or a fresh start. */
  function ProviderLoaded(docs: Documents, id: string): ProviderState {
    if ProviderKey in docs && docs[ProviderKey].ProviderDoc? && docs[ProviderKey].providerId == id
    then docs[ProviderKey].state
    else EMPTY
  }

  function OrElse(saved: Option<string>, configured: Option<string>): Option<string> {
    if saved.Some? && saved.value != "" then saved else configured
  }

  /** The mode's `load_state`: a null network id never replaces the configured one. */
  function LoadedMode(docs: Documents, id: string, configured: ModeFields): ModeFields {
    if ModeKey in docs && docs[ModeKey].ModeDoc? && docs[ModeKey].providerId == id then
      var m := docs[ModeKey].mode;
      ModeFields(
        m.resources, m.warmInstances,
        OrElse(m.vpcId, configured.vpcId), OrElse(m.subnetId, configured.subnetId),
        OrElse(m.securityGroupId, configured.securityGroupId), m.initialized)
    else configured
  }

  /**
   * The state a successor starts from: the provider loads its document and hands its warm list to
   * the mode, which then loads its own document and keeps the list of that one.
   */
  function Recovered(docs: Documents, id: string, configured: ModeFields): ProviderState {
    var loaded := ProviderLoaded(docs, id);
    loaded.(warm := LoadedMode(docs, id, configured.(warmInstances := loaded.warm)).warmInstances)
  }

  class OperatingMode {
    const providerId: string
    var fields: ModeFields

    constructor (providerId: string, fields: ModeFields)
      ensures this.providerId == providerId && this.fields == fields
    {
      this.providerId, this.fields := providerId, fields;
    }

    method SaveState(store: StateStore, ok: bool)
      modifies store
      ensures store.docs == if ok then old(store.docs)[ModeKey := ModeDoc(providerId, fields)] else old(store.docs)
    {
      store.SaveState(ModeKey, ModeDoc(providerId, fields), ok);
    }

    method LoadState(store: StateStore) returns (loaded: bool)
      modifies this
      ensures fields == LoadedMode(store.docs, providerId, old(fields))
      ensures loaded <==>
                ModeKey in store.docs && store.docs[ModeKey].ModeDoc? && store.docs[ModeKey].providerId == providerId
      ensures loaded ==>
                var m, now := store.docs[ModeKey].mode, fields;
                && now.resources == m.resources && now.warmInstances == m.warmInstances
                && now.initialized == m.initialized
                && now.vpcId == (if m.vpcId.Some? && m.vpcId.value != "" then m.vpcId else old(fields).vpcId)
                && now.subnetId ==
                     (if m.subnetId.Some? && m.subnetId.value != "" then m.subnetId else old(fields).subnetId)
                && now.securityGroupId ==
                     (if m.securityGroupId.Some? && m.securityGroupId.value != "" then m.securityGroupId
                      else old(fields).securityGroupId)
      ensures !loaded ==> fields == old(fields)
    {
      var doc := store.LoadState(ModeKey);
      if doc.Some? && doc.value.ModeDoc? && doc.value.providerId == providerId {
        var saved := doc.value.mode;
        fields := fields.(resources := saved.resources, warmInstances := saved.warmInstances);
        if saved.vpcId.Some? && saved.vpcId.value != "" {
          fields := fields.(vpcId := saved.vpcId);
        }
        if saved.subnetId.Some? && saved.subnetId.value != "" {
          fields := fields.(subnetId := saved.subnetId);
        }
        if saved.securityGroupId.Some? && saved.securityGroupId.value != "" {
          fields := fields.(securityGroupId := saved.securityGroupId);
        }
        fields := fields.(initialized := saved.initialized);
        return true;
      }
      return false;
    }
  }

  // ---------------------------------------------------------------- generations of providers

  /** What happens at one location: saves of either party, and successors with a fresh id. */
  datatype Event =
    | SaveProvider(state: ProviderState, ok: bool)
    | SaveMode(mode: ModeFields, ok: bool)
    | Successor(freshId: string)

  datatype Site = Site(docs: Documents, id: string)

  function Apply(s: Site, e: Event): Site {
    match e
    case SaveProvider(st, ok) => if ok then s.(docs := s.docs[ProviderKey := ProviderDoc(s.id, st)]) else s
    case SaveMode(m, ok) => if ok then s.(docs := s.docs[ModeKey := ModeDoc(s.id, m)]) else s
    case Successor(freshId) => s.(id := Adopted(s.docs, freshId))
  }

  function History(first: string, events: seq<Event>): Site {
    if events == [] then Site(map[], first)
    else Apply(History(first, events[..|events| - 1]), events[|events| - 1])
  }

  function LastProviderSave(events: seq<Event>): Option<ProviderState> {
    if events == [] then None
    else
      var e := events[|events| - 1];
      if e.SaveProvider? && e.ok then Some(e.state) else LastProviderSave(events[..|events| - 1])
  }

  function LastModeSave(events: seq<Event>): Option<ModeFields> {
    if events == [] then None
    else
      var e := events[|events| - 1];
      if e.SaveMode? && e.ok then Some(e.mode) else LastModeSave(events[..|events| - 1])
  }

  ghost predicate RealIds(first: string, events: seq<Event>) {
    first != "" && forall k :: 0 <= k < |events| && events[k].Successor? ==> events[k].freshId != ""
  }

  /** Every generation answers to one id, and each key holds the last document saved under it. */
  lemma {:induction false} SiteHolds(first: string, events: seq<Event>)
    requires RealIds(first, events)
    ensures var s := History(first, events);
            && s.id != ""
            && (forall k :: k in s.docs ==> s.docs[k].providerId == s.id)
            && Lookup(s.docs, ProviderKey) ==
                 (var p := LastProviderSave(events); if p.Some? then Some(ProviderDoc(s.id, p.value)) else None)
            && Lookup(s.docs, ModeKey) ==
                 (var m := LastModeSave(events); if m.Some? then Some(ModeDoc(s.id, m.value)) else None)
  {
    if events != [] {
      SiteHolds(first, events[..|events| - 1]);
      var s, e := History(first, events[..|events| - 1]), events[|events| - 1];
      forall k | k in s.docs
        ensures e.Successor? ==> Adopted(s.docs, e.freshId) == s.id
      {
        assert k == ProviderKey || k == ModeKey;
        assert ProviderKey in s.docs ==> s.docs[ProviderKey].providerId == s.id;
      }
    }
  }

  /**
   * After any interleaving of saves, across any number of earlier successors, the next one adopts
   * the id of whoever saved; it recovers exactly the last saved provider state but for the warm
   * list, which is that of the last saved mode document if there is one; and its mode finds exactly
   * that document: neither has overwritten the other.
   */
  lemma SuccessorRecovers(first: string, events: seq<Event>, freshId: string, configured: ModeFields)
    requires RealIds(first, events) && freshId != ""
    ensures var s := History(first, events);
            var t := Apply(s, Successor(freshId));
            var p, m := LastProviderSave(events), LastModeSave(events);
            && t.docs == s.docs
            && t.id == (if p.Some? || m.Some? then s.id else freshId)
            && ProviderLoaded(t.docs, t.id) == (if p.Some? then p.value else EMPTY)
            && (m.Some? ==> LoadedMode(t.docs, t.id, configured).resources == m.value.resources)
            && (m.Some? ==> LoadedMode(t.docs, t.id, configured).initialized == m.value.initialized)
            && (m.None? ==> LoadedMode(t.docs, t.id, configured) == configured)
            && Recovered(t.docs, t.id, configured)
               == (if p.Some? then p.value else EMPTY).(warm :=
                    if m.Some? then m.value.warmInstances else if p.Some? then p.value.warm else [])
  {
    SiteHolds(first, events);
    var s := History(first, events);
    assert Lookup(s.docs, ProviderKey).None? <==> ProviderKey !in s.docs;
    assert Lookup(s.docs, ModeKey).None? <==> ModeKey !in s.docs;
  }

  /** That is the restart the provider's runs are made of. */
  lemma SuccessorIsRestart(first: string, events: seq<Event>, freshId: string, configured: ModeFields,
          live: ProviderState, modeOk: bool)
    requires RealIds(first, events) && freshId != ""
    ensures var t := Apply(History(first, events), Successor(freshId));
            var m := LastModeSave(events);
            var s := System(live, LastProviderSave(events), if m.Some? then Some(m.value.warmInstances) else None);
            RestartStep(s, modeOk).live == Recovered(t.docs, t.id, configured)
  {
    SuccessorRecovers(first, events, freshId, configured);
  }
}
