/**
 * The application store (`AppProvider`, AppContext.tsx). Four cells --
 * language, theme, current colour and favourites -- and the two things the
 * store keeps in step with them: the origin's local storage, a map from keys
 * to strings, and the root element of the document (its `dir` and `lang`
 * attributes and its class list).
 *
 * `AppProvider` persists and publishes from effects that run after each render;
 * here every mutator does so before it returns, so `Valid()` -- storage and
 * document agree with the cells -- holds between any two calls.
 */
module AppContext {
  import opened Wrappers
  import opened Settings
  import opened Favorites
  import Json

  const LanguageKey: string := "app_language"
  const ThemeKey: string := "app_theme"
  const FavoritesKey: string := "app_favorites"

  /** The colour shown when the application opens; it is never stored. */
  const DefaultColor: string := "#3B82F6"

  /** The class on the root element that switches the styles to dark. */
  const DarkClass: string := "dark"

  /** The persisted part of the store's state. */
  datatype Snapshot = Snapshot(language: Language, theme: Theme, favorites: seq<string>)

  /** `localStorage.getItem(key)`: `None` stands for `null`. */
  function Lookup(storage: map<string, string>, key: string): Option<string>
  {
    if key in storage then Some(storage[key]) else None
  }

  /**
   * Start-up favourites: the empty list when nothing (or the empty string) is
   * stored, otherwise the stored JSON parsed, with no fallback when it cannot
   * be read. A list written to storage is the list read back at the next start.
   */
  function FavoritesFromStorage(saved: Option<string>): (r: Result<seq<string>, Json.ParseError>)
    ensures saved == None || saved == Some("") ==> r == Success([])
    ensures forall xs :: saved == Some(Json.Encode(xs)) ==> r == Success(xs)
    ensures saved.Some? && saved.value != "" && Json.Decode(saved.value).Failure? ==> r.Failure?
    ensures r == Success([]) ==> saved == None || saved == Some("") || Json.Decode(saved.value) == Success([])
  {
    assert forall xs :: saved == Some(Json.Encode(xs)) ==> saved != Some("") && Json.Decode(saved.value) == Success(xs) by {
      forall xs | saved == Some(Json.Encode(xs))
        ensures saved != Some("") && Json.Decode(saved.value) == Success(xs)
      {
        Json.DecodeEncode(xs);
        assert Json.Encode(xs)[0] == '[';
      }
    }
    if saved == None || saved == Some("") then Success([]) else Json.Decode(saved.value)
  }

  /** The state `AppProvider` starts from, read from `storage`. */
  function Boot(storage: map<string, string>): Result<Snapshot, Json.ParseError>
  {
    var language := LanguageFromStorage(Lookup(storage, LanguageKey));
    var theme := ThemeFromStorage(Lookup(storage, ThemeKey));
    var favorites :- FavoritesFromStorage(Lookup(storage, FavoritesKey));
    Success(Snapshot(language, theme, favorites))
  }

  /** `storage` after the three persistence effects have written `st`. */
  function Persist(storage: map<string, string>, st: Snapshot): map<string, string>
  {
    storage[LanguageKey := LanguageTag(st.language)]
           [ThemeKey := ThemeTag(st.theme)]
           [FavoritesKey := Json.Encode(st.favorites)]
  }

  /** Starting from what the store persisted restores every persisted cell. */
  lemma BootPersist(storage: map<string, string>, st: Snapshot)
    ensures Boot(Persist(storage, st)) == Success(st)
  {
    var s := Persist(storage, st);
    assert Lookup(s, LanguageKey) == Some(LanguageTag(st.language));
    assert Lookup(s, ThemeKey) == Some(ThemeTag(st.theme));
    assert Lookup(s, FavoritesKey) == Some(Json.Encode(st.favorites));
  }

  /** Stored favourites that cannot be read make the start fail: there is no fallback to `[]`. */
  lemma BootUnreadableFavorites(storage: map<string, string>)
    requires FavoritesKey in storage && storage[FavoritesKey] != ""
    requires Json.Decode(storage[FavoritesKey]).Failure?
    ensures Boot(storage).Failure?
  {
    assert Lookup(storage, FavoritesKey) == Some(storage[FavoritesKey]);
  }

  /** For instance, a stored `{` -- an object cut short -- stops the start. */
  lemma BootTruncatedFavorites()
    ensures Boot(map[FavoritesKey := "{"]).Failure?
  {
    assert Lookup(map[FavoritesKey := "{"], FavoritesKey) == Some("{");
  }

  /** A first start, with nothing stored, opens in English, light, with no favourites. */
  lemma BootEmpty()
    ensures Boot(map[]) == Success(Snapshot(En, Light, []))
  {
  }

  class AppStore {
    var language: Language
    var theme: Theme
    var currentColor: string
    var favorites: seq<string>
    /** The origin's `localStorage`. */
    var storage: map<string, string>
    /** `document.documentElement`: its `dir` and `lang` attributes and its class list. */
    var dir: string
    var lang: string
    var classList: set<string>

    /** Storage holds every persisted cell and the document shows the current settings. */
    ghost predicate Valid()
      reads this
    {
      && Lookup(storage, LanguageKey) == Some(LanguageTag(language))
      && Lookup(storage, ThemeKey) == Some(ThemeTag(theme))
      && Lookup(storage, FavoritesKey) == Some(Json.Encode(favorites))
      && dir == DirOf(language)
      && lang == LanguageTag(language)
      && (DarkClass in classList <==> theme == Dark)
    }

    /**
     * The first render of `AppProvider` from the start-up state `init`: the
     * cells take their initial values and the three effects run once, over
     * the storage and the class list the page had before.
     */
    constructor (init: Snapshot, storage0: map<string, string>, classList0: set<string>)
      ensures Valid()
      ensures language == init.language && theme == init.theme && favorites == init.favorites
      ensures currentColor == DefaultColor
      ensures storage == Persist(storage0, init)
      ensures classList == if init.theme == Dark then classList0 + {DarkClass} else classList0 - {DarkClass}
    {
      language := init.language;
      theme := init.theme;
      currentColor := DefaultColor;
      favorites := init.favorites;
      var s := storage0[LanguageKey := LanguageTag(init.language)];
      dir := DirOf(init.language);
      lang := LanguageTag(init.language);
      s := s[ThemeKey := ThemeTag(init.theme)];
      if init.theme == Dark {
        classList := classList0 + {DarkClass};
      } else {
        classList := classList0 - {DarkClass};
      }
      s := s[FavoritesKey := Json.Encode(init.favorites)];
      storage := s;
    }

    /**
     * Mounting `AppProvider` over `storage0`: fails exactly when the stored
     * favourites cannot be read. Malformed JSON makes `JSON.parse` throw;
     * well-formed JSON that is not an array of strings is rejected here too.
     */
    static method Mount(storage0: map<string, string>, classList0: set<string>)
      returns (r: Result<AppStore, Json.ParseError>)
      ensures r.Failure? <==> Boot(storage0).Failure?
      ensures r.Success? ==>
        && fresh(r.value) && r.value.Valid()
        && Snapshot(r.value.language, r.value.theme, r.value.favorites) == Boot(storage0).value
        && r.value.currentColor == DefaultColor
        && r.value.storage == Persist(storage0, Boot(storage0).value)
        && r.value.classList
           == if r.value.theme == Dark then classList0 + {DarkClass} else classList0 - {DarkClass}
    {
      var init :- Boot(storage0);
      var store := new AppStore(init, storage0, classList0);
      r := Success(store);
    }

    /** What a later start would read from the storage this store keeps. */
    lemma Reload()
      requires Valid()
      ensures Boot(storage) == Success(Snapshot(language, theme, favorites))
    {
      assert Lookup(storage, FavoritesKey) == Some(Json.Encode(favorites));
    }

    /** `isRTL`, which agrees with the document's direction. */
    function IsRTL(): (r: bool)
      reads this
      requires Valid()
      ensures r <==> dir == "rtl"
      ensures r <==> language == Ar
    {
      IsRtl(language)
    }

    /** `t(key)`: the entry for `key` in the table of the current language. */
    function Translate(translations: map<Language, map<string, string>>, key: string): string
      reads this
      requires language in translations && key in translations[language]
    {
      translations[language][key]
    }

    /** `setLanguage`: stores the language, then sets `dir` and `lang` from it. */
    method SetLanguage(l: Language)
      requires Valid()
      modifies this`language, this`storage, this`dir, this`lang
      ensures Valid()
      ensures language == l
      ensures storage == old(storage)[LanguageKey := LanguageTag(l)]
      ensures dir == (if l == Ar then "rtl" else "ltr") && lang == LanguageTag(l)
    {
      language := l;
      storage := storage[LanguageKey := LanguageTag(language)];
      dir := DirOf(language);
      lang := LanguageTag(language);
    }

    /** The header's language button: `setLanguage(language === 'en' ? 'ar' : 'en')`. */
    method ToggleLanguage()
      requires Valid()
      modifies this`language, this`storage, this`dir, this`lang
      ensures Valid()
      ensures language == Toggled(old(language)) && language != old(language)
      ensures storage == old(storage)[LanguageKey := LanguageTag(language)]
    {
      SetLanguage(if language == En then Ar else En);
    }

    /** `toggleTheme`: flips the theme, stores it and sets or clears the dark class. */
    method ToggleTheme()
      requires Valid()
      modifies this`theme, this`storage, this`classList
      ensures Valid()
      ensures theme == Flipped(old(theme)) && theme != old(theme)
      ensures storage == old(storage)[ThemeKey := ThemeTag(theme)]
      ensures classList == if theme == Dark then old(classList) + {DarkClass} else old(classList) - {DarkClass}
    {
      theme := if theme == Light then Dark else Light;
      storage := storage[ThemeKey := ThemeTag(theme)];
      if theme == Dark {
        classList := classList + {DarkClass};
      } else {
        classList := classList - {DarkClass};
      }
    }

    /** `setCurrentColor`: keeps the string as given; nothing is stored. */
    method SetCurrentColor(c: string)
      requires Valid()
      modifies this`currentColor
      ensures Valid()
      ensures currentColor == c
    {
      currentColor := c;
    }

    /** `addFavorite`: prepends `c` unless it is already saved, and stores the list. */
    method AddFavorite(c: string)
      requires Valid()
      modifies this`favorites, this`storage
      ensures Valid()
      ensures favorites == Add(old(favorites), c)
      ensures NoDup(old(favorites)) ==> NoDup(favorites)
      ensures storage == old(storage)[FavoritesKey := Json.Encode(favorites)]
    {
      if c !in favorites {
        favorites := [c] + favorites;
        storage := storage[FavoritesKey := Json.Encode(favorites)];
      }
    }

    /** `removeFavorite`: drops every entry equal to `c` and stores the list. */
    method RemoveFavorite(c: string)
      requires Valid()
      modifies this`favorites, this`storage
      ensures Valid()
      ensures favorites == Remove(old(favorites), c)
      ensures NoDup(old(favorites)) ==> NoDup(favorites)
      ensures storage == old(storage)[FavoritesKey := Json.Encode(favorites)]
    {
      if NoDup(favorites) { RemoveKeepsNoDup(favorites, c); }
      favorites := Remove(favorites, c);
      storage := storage[FavoritesKey := Json.Encode(favorites)];
    }
  }
}
