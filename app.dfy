/** The application shell (src/App.jsx): the hidden Numpad6 + Numpad9
    chord that opens the admin login, and the layout chosen for a path. */
module App {
  import opened TextUtil

  const ChordFirst: string := "Numpad6"
  const ChordSecond: string := "Numpad9"

  /** The `keydown` handler on the set of held key codes: the code is
      added; when both chord keys are held the modal opens and the set is
      cleared. Answers the new set and whether the modal opened. */
  function KeyDown(pressed: set<string>, code: string): (r: (set<string>, bool))
    ensures r.1 <==> ChordFirst in pressed + {code} && ChordSecond in pressed + {code}
    ensures r.1 ==> r.0 == {}
    ensures !r.1 ==> r.0 == pressed + {code}
  {
    var held := pressed + {code};
    if ChordFirst in held && ChordSecond in held then ({}, true) else (held, false)
  }

  /** The `keyup` handler. */
  function KeyUp(pressed: set<string>, code: string): (r: set<string>)
    ensures code !in r && r <= pressed
    ensures forall c :: c in pressed && c != code ==> c in r
  {
    pressed - {code}
  }

  datatype KeyAction = Down(code: string) | Up(code: string)

  /** Runs a sequence of key events from a held set; answers the final set
      and whether the modal opened at any point. */
  function Run(pressed: set<string>, events: seq<KeyAction>): (set<string>, bool)
    decreases |events|
  {
    if events == [] then (pressed, false)
    else
      var step := match events[0]
        case Down(c) => KeyDown(pressed, c)
        case Up(c) => (KeyUp(pressed, c), false);
      var rest := Run(step.0, events[1..]);
      (rest.0, step.1 || rest.1)
  }

  /** The modal never opens unless both chord keys go down: a run that
      starts without `key` held and never presses it never opens. */
  lemma {:induction false} ChordNeedsBoth(pressed: set<string>, events: seq<KeyAction>, key: string)
    requires key == ChordFirst || key == ChordSecond
    requires key !in pressed
    requires forall i :: 0 <= i < |events| ==> events[i] != Down(key)
    ensures !Run(pressed, events).1 && key !in Run(pressed, events).0
    decreases |events|
  {
    if events != [] {
      var next := match events[0]
        case Down(c) => KeyDown(pressed, c).0
        case Up(c) => KeyUp(pressed, c);
      assert key !in next;
      ChordNeedsBoth(next, events[1..], key);
    }
  }

  /** Pressing the two keys in either order, with nothing released in
      between, opens the modal. */
  lemma ChordOpens(pressed: set<string>)
    ensures Run(pressed, [Down(ChordFirst), Down(ChordSecond)]).1
    ensures Run(pressed, [Down(ChordSecond), Down(ChordFirst)]).1
  {
    var a := [Down(ChordFirst), Down(ChordSecond)];
    assert a[1..] == [Down(ChordSecond)];
    var b := [Down(ChordSecond), Down(ChordFirst)];
    assert b[1..] == [Down(ChordFirst)];
  }

  /** After the modal opened the set is empty, so pressing one chord key
      again does not reopen it. */
  lemma ClearedAfterOpening(code: string)
    requires code == ChordFirst || code == ChordSecond
    ensures !KeyDown({}, code).1
  {
  }

  /** The handlers' shared set and the modal flag. */
  class ChordDetector {
    var pressedKeys: set<string>
    var showAdminLogin: bool

    constructor ()
      ensures pressedKeys == {} && !showAdminLogin
    {
      pressedKeys := {};
      showAdminLogin := false;
    }

    method HandleKeyDown(code: string)
      modifies this
      ensures pressedKeys == KeyDown(old(pressedKeys), code).0
      ensures showAdminLogin == (old(showAdminLogin) || KeyDown(old(pressedKeys), code).1)
    {
      pressedKeys := pressedKeys + {code};
      if ChordFirst in pressedKeys && ChordSecond in pressedKeys {
        showAdminLogin := true;
        pressedKeys := {};
      }
    }

    method HandleKeyUp(code: string)
      modifies this
      ensures pressedKeys == KeyUp(old(pressedKeys), code) && showAdminLogin == old(showAdminLogin)
    {
      pressedKeys := pressedKeys - {code};
    }

    /** The modal's `onClose`. */
    method CloseModal()
      modifies this
      ensures !showAdminLogin && pressedKeys == old(pressedKeys)
    {
      showAdminLogin := false;
    }
  }

  // ---------------------------------------------------------------------
  // Layout
  // ---------------------------------------------------------------------

  datatype Layout = AuthLayout | Bare | WithNavigation

  /** `Layout`: `/auth` exactly gets the auth wrapper; any path starting
      with `/editor` is shown bare; every other path gets the sidebar and
      the bottom navigation. */
  function LayoutFor(path: string): (r: Layout)
    ensures r == AuthLayout <==> path == "/auth"
    ensures r == Bare <==> path != "/auth" && StartsWith(path, "/editor")
  {
    if path == "/auth" then AuthLayout
    else if StartsWith(path, "/editor") then Bare
    else WithNavigation
  }

  /** The editor route with or without an id is bare; so is any other path
      that merely begins with `/editor`. */
  lemma EditorPathsBare(rest: string)
    ensures LayoutFor("/editor" + rest) == Bare
  {
    assert "/editor" <= "/editor" + rest;
  }

  /** The other routes of the router get the navigation. */
  lemma NavigatedRoutes(username: string)
    ensures LayoutFor("/") == WithNavigation
    ensures LayoutFor("/foryou") == WithNavigation
    ensures LayoutFor("/dashboard") == WithNavigation
    ensures LayoutFor("/settings") == WithNavigation
    ensures LayoutFor("/settings/profile") == WithNavigation
    ensures LayoutFor("/admin") == WithNavigation
    ensures LayoutFor("/liked-projects") == WithNavigation
    ensures LayoutFor("/user/" + username) == WithNavigation
  {
    assert ("/user/" + username)[1] != "/editor"[1];
    assert "/dashboard"[1] != "/editor"[1];
    assert "/admin"[1] != "/editor"[1];
  }
}
