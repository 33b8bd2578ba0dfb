/**
 * The browser state the homepage's start-up code touches, reduced to what that code reads and
 * writes: the document root's inline style (CSS custom properties) and class list, the
 * 'theme-mode' entry of localStorage, and the '(prefers-color-scheme: dark)' media query with
 * the change listeners registered on it.
 */
module Dom {
  import opened Wrappers

  /** The root element's inline style and class list, as a value. */
  datatype RootState = RootState(style: map<string, string>, classes: set<string>)

  /** The names an ordered list of (name, value) writes assigns. */
  function Names(entries: seq<(string, string)>): (ks: set<string>)
    ensures forall i :: 0 <= i < |entries| ==> entries[i].0 in ks
    ensures forall k :: k in ks ==> exists i :: 0 <= i < |entries| && entries[i].0 == k
  {
    set i | 0 <= i < |entries| :: entries[i].0
  }

  /** No name is written by two entries. */
  predicate DistinctNames(entries: seq<(string, string)>)
  {
    forall i, j :: 0 <= i < j < |entries| ==> entries[i].0 != entries[j].0
  }

  /**
   * The style map after setProperty(name, value) has been called for each entry in order:
   * the written names are added and every other property keeps its value.
   */
  function SetAll(style: map<string, string>, entries: seq<(string, string)>): (r: map<string, string>)
    ensures r.Keys == style.Keys + Names(entries)
    ensures forall k :: k in style && k !in Names(entries) ==> r[k] == style[k]
  {
    if entries == [] then style
    else
      var last := entries[|entries| - 1];
      assert Names(entries) == Names(entries[..|entries| - 1]) + {last.0};
      SetAll(style, entries[..|entries| - 1])[last.0 := last.1]
  }

  /** Writing one more entry of a list updates the map once more. */
  lemma SetAllSnoc(style: map<string, string>, entries: seq<(string, string)>, k: nat)
    requires k < |entries|
    ensures SetAll(style, entries[..k + 1]) == SetAll(style, entries[..k])[entries[k].0 := entries[k].1]
  {
    assert entries[..k + 1][..k] == entries[..k];
  }

  /** When no name is written twice, every written name holds the value its entry gives it. */
  lemma {:induction false} SetAllDistinct(style: map<string, string>, entries: seq<(string, string)>)
    requires DistinctNames(entries)
    ensures forall i :: 0 <= i < |entries| ==> SetAll(style, entries)[entries[i].0] == entries[i].1
  {
    if entries != [] {
      var init := entries[..|entries| - 1];
      var last := entries[|entries| - 1];
      assert DistinctNames(init);
      SetAllDistinct(style, init);
      forall i | 0 <= i < |entries| - 1
        ensures SetAll(style, entries)[entries[i].0] == entries[i].1
      {
        assert entries[i] == init[i] && entries[i].0 != last.0;
      }
    }
  }

  /** Writing the same names twice leaves what the second list of writes leaves. */
  lemma {:induction false} SetAllOverwrite(style: map<string, string>, first: seq<(string, string)>,
                                          second: seq<(string, string)>)
    requires Names(first) <= Names(second)
    ensures SetAll(SetAll(style, first), second) == SetAll(style, second)
  {
    var a := SetAll(SetAll(style, first), second);
    var b := SetAll(style, second);
    assert a.Keys == b.Keys;
    forall k | k in a
      ensures a[k] == b[k]
    {
      if k in Names(second) {
        LastWrite(SetAll(style, first), style, second, k);
      }
    }
  }

  /** The value a written name ends up with does not depend on the style written into. */
  lemma {:induction false} LastWrite(m1: map<string, string>, m2: map<string, string>,
                                     entries: seq<(string, string)>, k: string)
    requires k in Names(entries)
    ensures SetAll(m1, entries)[k] == SetAll(m2, entries)[k]
  {
    var last := entries[|entries| - 1];
    if last.0 != k {
      assert Names(entries) == Names(entries[..|entries| - 1]) + {last.0};
      LastWrite(m1, m2, entries[..|entries| - 1], k);
    }
  }

  /** document.documentElement: its inline style and its class list. */
  class Root {
    var style: map<string, string>
    var classes: set<string>

    constructor (style: map<string, string>, classes: set<string>)
      ensures this.style == style && this.classes == classes
    {
      this.style := style;
      this.classes := classes;
    }

    function State(): RootState
      reads this
    {
      RootState(style, classes)
    }

    /** style.setProperty(name, value) */
    method SetProperty(name: string, value: string)
      modifies this
      ensures style == old(style)[name := value]
      ensures classes == old(classes)
    {
      style := style[name := value];
    }

    /** classList.remove(names...) */
    method RemoveClasses(names: set<string>)
      modifies this
      ensures classes == old(classes) - names
      ensures style == old(style)
    {
      classes := classes - names;
    }

    /** classList.add(name) */
    method AddClass(name: string)
      modifies this
      ensures classes == old(classes) + {name}
      ensures style == old(style)
    {
      classes := classes + {name};
    }
  }

  /**
   * The window-level services the theme code uses: localStorage's 'theme-mode' entry, whether
   * '(prefers-color-scheme: dark)' currently matches, and the change listeners registered on that
   * query, each identified by a number no other listener has been given.
   */
  class Window {
    var storedMode: Option<string>
    var prefersDark: bool
    var listeners: set<nat>
    var nextListener: nat

    /** Every registered listener has a number below the next one to be handed out. */
    ghost predicate Valid()
      reads this
    {
      forall id :: id in listeners ==> id < nextListener
    }

    constructor (storedMode: Option<string>, prefersDark: bool)
      ensures Valid()
      ensures this.storedMode == storedMode && this.prefersDark == prefersDark && listeners == {}
    {
      this.storedMode := storedMode;
      this.prefersDark := prefersDark;
      listeners := {};
      nextListener := 0;
    }

    /** localStorage.setItem('theme-mode', value) */
    method SetItem(value: string)
      modifies this
      ensures storedMode == Some(value)
      ensures prefersDark == old(prefersDark) && listeners == old(listeners) && nextListener == old(nextListener)
    {
      storedMode := Some(value);
    }

    /** The operating system switches its colour-scheme preference. */
    method SetPrefersDark(dark: bool)
      modifies this
      ensures prefersDark == dark
      ensures storedMode == old(storedMode) && listeners == old(listeners) && nextListener == old(nextListener)
    {
      prefersDark := dark;
    }

    /** mediaQuery.addEventListener('change', handler) with a handler not registered before. */
    method AddChangeListener() returns (id: nat)
      requires Valid()
      modifies this
      ensures Valid()
      ensures id !in old(listeners) && listeners == old(listeners) + {id}
      ensures storedMode == old(storedMode) && prefersDark == old(prefersDark)
    {
      id := nextListener;
      listeners := listeners + {id};
      nextListener := nextListener + 1;
    }

    /** mediaQuery.removeEventListener('change', handler): nothing happens if it is not registered. */
    method RemoveChangeListener(id: nat)
      requires Valid()
      modifies this
      ensures Valid()
      ensures listeners == old(listeners) - {id}
      ensures storedMode == old(storedMode) && prefersDark == old(prefersDark) && nextListener == old(nextListener)
    {
      listeners := listeners - {id};
    }
  }
}
