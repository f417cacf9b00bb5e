/**
 * The tier context of src/hooks/use-context.tsx: one `tier` state field that is
 * either free or premium, loaded from and saved to `localStorage` under "tier".
 */
module TierContext {
  import opened Wrappers
  import Browser

  datatype Tier = Free | Premium

  const StorageKey := "tier"
  const MissingProviderError := "useTier must be used within a TierProvider"

  function TierName(t: Tier): (s: string)
    ensures s == "free" <==> t == Free
    ensures s == "free" || s == "premium"
  {
    match t
    case Free => "free"
    case Premium => "premium"
  }

  /** A stored value names a tier only when it is exactly "free" or "premium". */
  function ParseTier(stored: Option<string>): (r: Option<Tier>)
    ensures r.Some? <==> stored.Some? && (stored.value == "free" || stored.value == "premium")
    ensures r.Some? ==> TierName(r.value) == stored.value
  {
    if stored == Some("free") then Some(Free)
    else if stored == Some("premium") then Some(Premium)
    else None
  }

  /** What a saved tier reads back as. */
  lemma ParseSavedTier(t: Tier)
    ensures ParseTier(Some(TierName(t))) == Some(t)
  {
  }

  /** `prev === "free" ? "premium" : "free"`. */
  function Toggled(t: Tier): (r: Tier)
    ensures r != t
  {
    if t == Free then Premium else Free
  }

  lemma ToggleTwice(t: Tier)
    ensures Toggled(Toggled(t)) == t
  {
  }

  /**
   * `useTier()`: the context value, or the error it throws outside a provider.
   * `provided` is the value `useContext` finds (None: no provider above).
   */
  function UseTier(provided: Option<Tier>): (r: Result<Tier, string>)
    ensures r.Success? <==> provided.Some?
    ensures r.Success? ==> r.value == provided.value
    ensures r.Failure? ==> r.error == MissingProviderError
  {
    match provided
    case Some(t) => Success(t)
    case None => Failure(MissingProviderError)
  }

  /** `TierProvider`: the state field, the storage it persists to, and whether a window exists. */
  class TierProvider {
    var tier: Tier
    const storage: Browser.Storage
    const hasWindow: bool

    /** After mounting, storage always holds the current tier (when there is a window). */
    ghost predicate Synced()
      reads this, storage
    {
      hasWindow ==> storage.GetItem(StorageKey) == Some(TierName(tier))
    }

    /** `useState<TierType>("free")`. */
    constructor (storage: Browser.Storage, hasWindow: bool)
      ensures tier == Free
      ensures this.storage == storage && this.hasWindow == hasWindow
    {
      tier := Free;
      this.storage := storage;
      this.hasWindow := hasWindow;
    }

    /** The persist effect: write the current tier under "tier". */
    method Persist()
      modifies storage
      ensures hasWindow ==> storage.items == old(storage.items)[StorageKey := TierName(tier)]
      ensures !hasWindow ==> storage.items == old(storage.items)
      ensures Synced()
    {
      if hasWindow {
        storage.SetItem(StorageKey, TierName(tier));
      }
    }

    /**
     * The first commit: the load effect reads storage, the persist effect of the
     * same commit then writes the initial tier, and when the loaded tier differs
     * the re-render persists it again.
     */
    method Mount()
      modifies this, storage
      ensures tier == (if hasWindow then ParseTier(old(storage.GetItem(StorageKey))).GetOr(old(tier)) else old(tier))
      ensures Synced()
      ensures forall k :: k != StorageKey ==> (k in storage.items <==> k in old(storage.items))
      ensures forall k :: k != StorageKey && k in storage.items ==> storage.items[k] == old(storage.items)[k]
    {
      var stored := if hasWindow then storage.GetItem(StorageKey) else None;
      Persist();
      var loaded := ParseTier(stored);
      if loaded.Some? && loaded.value != tier {
        tier := loaded.value;
        Persist();
      }
    }

    /** `setTier(t)`; the persist effect runs when the value changed. */
    method SetTier(t: Tier)
      requires Synced()
      modifies this, storage
      ensures tier == t
      ensures Synced()
      ensures hasWindow ==> storage.items == old(storage.items)[StorageKey := TierName(t)]
      ensures !hasWindow ==> storage.items == old(storage.items)
    {
      if t != tier {
        tier := t;
        Persist();
      } else if hasWindow {
        assert storage.items[StorageKey] == TierName(t);
        assert storage.items == storage.items[StorageKey := TierName(t)];
      }
    }

    /** `toggleTier()`: free becomes premium and premium becomes free. */
    method ToggleTier()
      requires Synced()
      modifies this, storage
      ensures tier == Toggled(old(tier))
      ensures Synced()
      ensures hasWindow ==> storage.items == old(storage.items)[StorageKey := TierName(tier)]
      ensures !hasWindow ==> storage.items == old(storage.items)
    {
      tier := if tier == Free then Premium else Free;
      Persist();
    }
  }

  /** Toggling twice restores both the tier and what storage holds. */
  method ToggleTwiceRestores(p: TierProvider)
    requires p.Synced()
    modifies p, p.storage
    ensures p.tier == old(p.tier)
    ensures p.storage.items == old(p.storage.items)
  {
    ghost var before := p.storage.items;
    p.ToggleTier();
    p.ToggleTier();
    if p.hasWindow {
      assert before[StorageKey] == TierName(p.tier);
      assert p.storage.items == before;
    }
  }
}
