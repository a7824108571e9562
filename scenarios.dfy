/**
 * Whole-store runs: a first start, the save / save again / delete sequence on
 * the default colour, the header's language button pressed twice, and a
 * restart over stored favourites. Each is proved from the contracts of the
 * store's members alone.
 */
module Scenarios {
  import opened Wrappers
  import opened Settings
  import opened AppContext

  /** On a first start, saving the shown colour twice and deleting it leaves nothing saved. */
  method SaveTwiceThenDelete()
    returns (afterFirst: seq<string>, afterSecond: seq<string>, afterDelete: seq<string>, stored: Option<string>)
    ensures afterFirst == [DefaultColor]
    ensures afterSecond == [DefaultColor]
    ensures afterDelete == []
    ensures stored == Some("[]")
  {
    BootEmpty();
    var r := AppStore.Mount(map[], {});
    var store := r.value;
    store.AddFavorite(store.currentColor);
    afterFirst := store.favorites;
    store.AddFavorite(store.currentColor);
    afterSecond := store.favorites;
    store.RemoveFavorite(DefaultColor);
    afterDelete := store.favorites;
    stored := Lookup(store.storage, FavoritesKey);
    assert Json.Encode([]) == "[]";
  }

  /** Pressing the language button twice goes right to left and back. */
  method LanguageButtonTwice() returns (dirAfterFirst: string, dirAfterSecond: string)
    ensures dirAfterFirst == "rtl"
    ensures dirAfterSecond == "ltr"
  {
    BootEmpty();
    var r := AppStore.Mount(map[], {});
    var store := r.value;
    store.ToggleLanguage();
    dirAfterFirst := store.dir;
    store.ToggleLanguage();
    dirAfterSecond := store.dir;
  }

  lemma EncodePair(a: string, b: string)
    ensures Json.Encode([a, b]) == ['['] + Json.Quote(a) + [','] + Json.Quote(b) + [']']
  {
    assert [a, b][1..] == [b];
    assert Json.EncodeItems([a, b]) == Json.Quote(a) + [','] + Json.Quote(b);
  }

  /** The text `JSON.stringify` writes for the red and green favourites. */
  lemma StoredRedGreen(red: string, green: string)
    requires red == "#FF0000" && green == "#00FF00"
    ensures Json.Encode([red, green]) == "[\"#FF0000\",\"#00FF00\"]"
  {
    Json.QuotePlain(red);
    Json.QuotePlain(green);
    EncodePair(red, green);
  }

  /** A start over stored favourites shows exactly those, in their order. */
  method RestartWithFavorites(storage0: map<string, string>) returns (restored: seq<string>)
    requires Lookup(storage0, FavoritesKey) == Some("[\"#FF0000\",\"#00FF00\"]")
    ensures restored == ["#FF0000", "#00FF00"]
  {
    var red, green := "#FF0000", "#00FF00";
    StoredRedGreen(red, green);
    var r := AppStore.Mount(storage0, {});
    restored := r.value.favorites;
  }

  /** Whatever a store has persisted, the next start reads back in full. */
  method Restart(store: AppStore, classList0: set<string>) returns (next: AppStore)
    requires store.Valid()
    ensures next.language == store.language && next.theme == store.theme
    ensures next.favorites == store.favorites
    ensures next.currentColor == DefaultColor
  {
    store.Reload();
    var r := AppStore.Mount(store.storage, classList0);
    next := r.value;
  }
}
