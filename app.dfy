/**
 * The page state of `App.jsx` outside its playback slot (which is `Playback.Player`): the two
 * gallery lists it loads from the store, its loading flag, and the gate in front of the
 * administrator panel. The answers of the two getters and whether a user is signed in are
 * inputs.
 */
module App {
  import opened Wrappers
  import opened Domain
  import MockData

  /** What the page asks of the outside: the two gallery getters, and the sign-in alert. */
  datatype AppCall = FetchWithMusic | FetchWithoutMusic | LoginAlert

  class AppState {
    var charactersWithMusic: seq<Character>
    var charactersWithoutMusic: seq<Character>
    var loading: bool
    var showAdmin: bool
    var calls: seq<AppCall>

    constructor()
      ensures charactersWithMusic == [] && charactersWithoutMusic == [] && loading && !showAdmin && calls == []
    {
      charactersWithMusic := [];
      charactersWithoutMusic := [];
      loading := true;
      showAdmin := false;
      calls := [];
    }

    /**
     * `loadCharacters`: both getters run together (`Promise.all`). When both resolve, each list
     * shows its answer, or an empty list for `null`; when either throws, neither list changes.
     * Loading ends either way.
     */
    method LoadCharacters(withMusic: Fetch<seq<Character>>, withoutMusic: Fetch<seq<Character>>)
      modifies this
      ensures withMusic.Loaded? && withoutMusic.Loaded? ==>
        charactersWithMusic == withMusic.result.GetOr([]) && charactersWithoutMusic == withoutMusic.result.GetOr([])
      ensures withMusic.Threw? || withoutMusic.Threw? ==>
        charactersWithMusic == old(charactersWithMusic) && charactersWithoutMusic == old(charactersWithoutMusic)
      ensures !loading && showAdmin == old(showAdmin)
      ensures calls == old(calls) + [FetchWithMusic, FetchWithoutMusic]
    {
      loading := true;
      calls := calls + [FetchWithMusic, FetchWithoutMusic];
      if withMusic.Loaded? && withoutMusic.Loaded? {
        charactersWithMusic := withMusic.result.GetOr([]);
        charactersWithoutMusic := withoutMusic.result.GetOr([]);
      }
      loading := false;
    }

    /**
     * The header's admin button: without a signed-in user it only alerts and the panel's flag
     * stays as it was; with one the panel opens.
     */
    method OpenAdmin(hasUser: bool)
      modifies this
      ensures showAdmin == (hasUser || old(showAdmin))
      ensures calls == old(calls) + (if hasUser then [] else [LoginAlert])
      ensures charactersWithMusic == old(charactersWithMusic) && charactersWithoutMusic == old(charactersWithoutMusic)
      ensures loading == old(loading)
    {
      if !hasUser {
        calls := calls + [LoginAlert];
        return;
      }
      showAdmin := true;
    }
  }

  /**
   * The page loaded from the mock store shows only approved entries, each in the tab that
   * matches its music flag, so nothing waiting in the moderation queue is ever shown.
   */
  method LoadFromStore(store: MockData.Store) returns (page: AppState)
    requires store.Valid()
    ensures forall c :: c in page.charactersWithMusic ==> c.status == Approved && c.hasMusic && c in store.gallery
    ensures forall c :: c in page.charactersWithoutMusic ==> c.status == Approved && !c.hasMusic && c in store.gallery
    ensures forall c :: c in store.queue ==> c !in page.charactersWithMusic && c !in page.charactersWithoutMusic
  {
    page := new AppState();
    var withMusic := store.CharactersWithMusic();
    var withoutMusic := store.CharactersWithoutMusic();
    page.LoadCharacters(Loaded(Some(withMusic)), Loaded(Some(withoutMusic)));
    forall c | c in withMusic || c in withoutMusic ensures c in store.gallery {
      MockData.PartitionMembers(store.gallery, true, c);
      MockData.PartitionMembers(store.gallery, false, c);
    }
  }
}
