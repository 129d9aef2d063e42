/** The cookie-consent banner: hidden at first, shown after mount unless
    the browser's storage already records consent, hidden again by either
    button; only "Accept All" records consent. */
module Cookies {
  const ConsentKey := "cookie_consent"
  const Accepted := "true"

  /** The stored entry is present and non-empty (`getItem` is truthy). */
  predicate Consented(storage: map<string, string>) {
    ConsentKey in storage && storage[ConsentKey] != ""
  }

  class CookieBanner {
    var visible: bool
    /** The browser's local storage. */
    var storage: map<string, string>

    constructor (stored: map<string, string>)
      ensures !visible && storage == stored
    {
      visible := false;
      storage := stored;
    }

    /** The mount effect: show the banner unless consent is recorded. */
    method Mount()
      modifies this`visible
      ensures visible <==> old(visible) || !Consented(storage)
    {
      if !Consented(storage) {
        visible := true;
      }
    }

    /** "Accept All": record consent and hide. No other entry changes. */
    method Accept()
      modifies this`visible, this`storage
      ensures !visible && storage == old(storage)[ConsentKey := Accepted]
      ensures Consented(storage)
      ensures forall k :: k in old(storage) && k != ConsentKey ==> k in storage && storage[k] == old(storage)[k]
    {
      storage := storage[ConsentKey := Accepted];
      visible := false;
    }

    /** "Close": hide for now, record nothing. */
    method Close()
      modifies this`visible
      ensures !visible
    {
      visible := false;
    }
  }

  /** A first visit shows the banner; after "Accept All", a later visit
      with the same storage keeps it hidden, whereas after "Close" it shows
      again. */
  method ConsentScenario(stored: map<string, string>)
    requires ConsentKey !in stored
  {
    var banner := new CookieBanner(stored);
    banner.Mount();
    assert banner.visible;
    banner.Close();
    var later := new CookieBanner(banner.storage);
    later.Mount();
    assert later.visible;

    later.Accept();
    var again := new CookieBanner(later.storage);
    again.Mount();
    assert !again.visible;
  }
}
