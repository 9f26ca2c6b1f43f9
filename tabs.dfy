/**
 * The main window's camera tabs, seen as the sequence of their texts: a tab
 * is added for every newly listed camera and tabs of cameras no longer
 * listed are removed.
 */
module MainWindowTabs {
  import opened Sdk
  import opened Text
  import opened QhyDriver

  /** No text appears twice. */
  predicate NoDuplicates(s: seq<string>) {
    forall p, q :: 0 <= p < q < |s| ==> s[p] != s[q]
  }

  /** The first loop of `updateCameraList()`: a tab is appended for each name that has none yet. */
  function AddPass(tabs: seq<string>, names: seq<string>): seq<string>
    decreases |names|
  {
    if names == [] then tabs
    else AddPass(if names[0] in tabs then tabs else tabs + [names[0]], names[1..])
  }

  /**
   * The second loop as written: the tab at `i` is removed when its text is
   * not listed, and the index moves on whether or not a tab was removed.
   */
  function RemovePass(tabs: seq<string>, names: seq<string>, i: nat): seq<string>
    decreases |tabs| - i
  {
    if i >= |tabs| then tabs
    else if tabs[i] !in names then RemovePass(tabs[..i] + tabs[i + 1..], names, i + 1)
    else RemovePass(tabs, names, i + 1)
  }

  /** The tabs whose text is listed, in their order: what the removal pass is meant to leave. */
  function RemoveStale(tabs: seq<string>, names: seq<string>): seq<string>
    decreases |tabs|
  {
    if tabs == [] then []
    else (if tabs[0] in names then [tabs[0]] else []) + RemoveStale(tabs[1..], names)
  }

  /**
   * After the first loop the old tabs keep their place, every name has a
   * tab, and each appended tab is a listed name that had no tab; the
   * appended tabs follow the order in which their names first occur.
   */
  lemma {:induction false} AddPassShape(tabs: seq<string>, names: seq<string>)
    ensures var r := AddPass(tabs, names);
      && tabs <= r
      && (forall n :: n in names ==> n in r)
      && (forall k :: |tabs| <= k < |r| ==> r[k] in names && r[k] !in tabs)
      && (forall p, q :: |tabs| <= p < q < |r| ==> IndexOf(names, r[p]) < IndexOf(names, r[q]))
    decreases |names|
  {
    if names != [] {
      var x, rest := names[0], names[1..];
      var next := if x in tabs then tabs else tabs + [x];
      AddPassShape(next, rest);
      var r := AddPass(tabs, names);
      assert r == AddPass(next, rest);
      forall k | |next| <= k < |r|
        ensures r[k] != x && IndexOf(names, r[k]) == 1 + IndexOf(rest, r[k])
      {
        assert r[k] !in next;
        assert x in next;
      }
      forall n | n in names ensures n in r {
        if n != x {
          assert n in rest;
        } else {
          assert x in next;
        }
      }
      forall k | |tabs| <= k < |r| ensures r[k] in names && r[k] !in tabs {
        if k < |next| {
          assert r[k] == x;
        }
      }
      forall p, q | |tabs| <= p < q < |r| ensures IndexOf(names, r[p]) < IndexOf(names, r[q]) {
        if p < |next| {
          assert r[p] == x && IndexOf(names, x) == 0;
        }
      }
    }
  }

  /** Because a tab is only appended for a name without one, the first loop never makes a duplicate. */
  lemma AddPassNoDuplicates(tabs: seq<string>, names: seq<string>)
    requires NoDuplicates(tabs)
    ensures NoDuplicates(AddPass(tabs, names))
  {
    AddPassShape(tabs, names);
    var r := AddPass(tabs, names);
    forall p, q | 0 <= p < q < |r| ensures r[p] != r[q] {
      if q >= |tabs| && p >= |tabs| {
        assert IndexOf(names, r[p]) < IndexOf(names, r[q]);
      } else if q >= |tabs| {
        assert r[p] == tabs[p];
      }
    }
  }

  /**
   * The removal pass as written only removes tabs whose text is not listed:
   * each listed text keeps every one of its tabs, and the pass never adds one.
   */
  lemma {:induction false} RemovePassKeepsListed(tabs: seq<string>, names: seq<string>, i: nat)
    ensures multiset(RemovePass(tabs, names, i)) <= multiset(tabs)
    ensures forall n :: n in names ==> multiset(RemovePass(tabs, names, i))[n] == multiset(tabs)[n]
    decreases |tabs| - i
  {
    if i < |tabs| {
      if tabs[i] !in names {
        var shorter := tabs[..i] + tabs[i + 1..];
        assert tabs == tabs[..i] + [tabs[i]] + tabs[i + 1..];
        assert multiset(tabs) == multiset(shorter) + multiset{tabs[i]};
        RemovePassKeepsListed(shorter, names, i + 1);
      } else {
        RemovePassKeepsListed(tabs, names, i + 1);
      }
    }
  }

  /** No two unlisted tabs are neighbours from position `i` on. */
  predicate NoAdjacentStale(tabs: seq<string>, names: seq<string>, i: nat) {
    forall k :: i <= k < |tabs| - 1 ==> tabs[k] in names || tabs[k + 1] in names
  }

  /** The intended removal looks at one tab at a time. */
  lemma RemoveStaleCons(t: string, rest: seq<string>, names: seq<string>)
    ensures RemoveStale([t] + rest, names) == (if t in names then [t] else []) + RemoveStale(rest, names)
  {
    assert ([t] + rest)[1..] == rest;
  }

  /**
   * The skipped tab is harmless only when it is listed: when no two unlisted
   * tabs are neighbours, the pass from `i` on removes exactly the unlisted tabs.
   */
  lemma {:induction false} RemovePassWithoutAdjacentStale(tabs: seq<string>, names: seq<string>, i: nat)
    requires i <= |tabs|
    requires NoAdjacentStale(tabs, names, i)
    ensures RemovePass(tabs, names, i) == tabs[..i] + RemoveStale(tabs[i..], names)
    decreases |tabs| - i
  {
    if i == |tabs| {
      assert tabs[i..] == [];
    } else {
      assert tabs[i..] == [tabs[i]] + tabs[i + 1..];
      RemoveStaleCons(tabs[i], tabs[i + 1..], names);
      if tabs[i] in names {
        RemovePassWithoutAdjacentStale(tabs, names, i + 1);
        assert tabs[..i + 1] == tabs[..i] + [tabs[i]];
      } else if i + 1 == |tabs| {
        assert tabs[i + 1..] == [];
        assert tabs[..i] + tabs[i + 1..] == tabs[..i];
      } else {
        var shorter := tabs[..i] + tabs[i + 1..];
        assert forall k :: i + 1 <= k < |shorter| ==> shorter[k] == tabs[k + 1];
        RemovePassWithoutAdjacentStale(shorter, names, i + 1);
        assert shorter[..i + 1] == tabs[..i] + [tabs[i + 1]];
        assert shorter[i + 1..] == tabs[i + 2..];
        assert tabs[i + 1..] == [tabs[i + 1]] + tabs[i + 2..];
        RemoveStaleCons(tabs[i + 1], tabs[i + 2..], names);
      }
    }
  }

  /** With two unlisted tabs side by side, the second one survives the pass as written. */
  lemma RemovePassSkipsNeighbour()
    ensures RemovePass(["a", "b"], [], 0) == ["b"]
    ensures RemoveStale(["a", "b"], []) == []
  {
    assert ["a", "b"][..0] + ["a", "b"][1..] == ["b"];
  }

  /** The intended removal keeps exactly the listed tabs, each as often as before. */
  lemma {:induction false} RemoveStaleKeepsExactlyListed(tabs: seq<string>, names: seq<string>)
    ensures var r := RemoveStale(tabs, names);
      && (forall t :: t in r <==> t in tabs && t in names)
      && (forall n :: n in names ==> multiset(r)[n] == multiset(tabs)[n])
      && (forall t :: t !in names ==> multiset(r)[t] == 0)
      && |r| <= |tabs|
    decreases |tabs|
  {
    if tabs != [] {
      RemoveStaleKeepsExactlyListed(tabs[1..], names);
      assert tabs == [tabs[0]] + tabs[1..];
      assert multiset(tabs) == multiset{tabs[0]} + multiset(tabs[1..]);
    }
  }

  /**
   * `updateCameraList()` as written ends with a tab for every listed name,
   * and with no tab whose text was neither a tab nor listed before.
   */
  lemma UpdateKeepsEveryListedName(tabs: seq<string>, names: seq<string>)
    ensures var r := RemovePass(AddPass(tabs, names), names, 0);
      && (forall n :: n in names ==> n in r)
      && (forall t :: t in r ==> t in tabs || t in names)
  {
    var added := AddPass(tabs, names);
    var r := RemovePass(added, names, 0);
    AddPassShape(tabs, names);
    RemovePassKeepsListed(added, names, 0);
    forall n | n in names ensures n in r {
      assert n in multiset(added);
      assert n in multiset(r);
    }
    forall t | t in r ensures t in tabs || t in names {
      assert t in multiset(r);
      assert t in multiset(added);
      var k :| 0 <= k < |added| && added[k] == t;
      if k < |tabs| {
        assert tabs[k] == t;
      }
    }
  }

  /** The window's tab widget, through the texts of its tabs. */
  class MainWindow {
    const qhyccd: Driver
    var tabs: seq<string>

    /**
     * The window creates its own driver and initialises it.  A driver that
     * comes up lists its cameras, and the list's change signal runs
     * `updateCameraList()` before the constructor returns; one that does not
     * come up leaves the window without tabs.
     */
    constructor (sdk: Sdk)
      ensures fresh(qhyccd)
      ensures qhyccd.ready <==> sdk.initResource == QhyccdSuccess
      ensures qhyccd.cameras == if qhyccd.ready then CameraIds(sdk, sdk.scan as nat) else []
      ensures tabs == if qhyccd.ready then RemovePass(AddPass([], qhyccd.cameras), qhyccd.cameras, 0) else []
    {
      var driver := new Driver();
      qhyccd := driver;
      // Assumed: the tab widget from the window's .ui file starts empty.
      tabs := [];
      new;
      var ready := driver.Initialize(sdk);
      if ready {
        var cameraNames := driver.Cameras();
        UpdateCameraList(cameraNames);
      }
    }

    /** `cameraTabExists()`: a search over the tabs that stops at the first match. */
    method CameraTabExists(cameraName: string) returns (found: bool)
      ensures found <==> cameraName in tabs
    {
      found := false;
      var tabIndex := 0;
      while tabIndex < |tabs|
        invariant 0 <= tabIndex <= |tabs|
        invariant !found && cameraName !in tabs[..tabIndex]
      {
        if tabs[tabIndex] == cameraName {
          found := true;
          break;
        }
        tabIndex := tabIndex + 1;
      }
    }

    /**
     * The first loop of `updateCameraList()`: a new camera and a tab for each
     * listed name without a tab.  A created camera is never null, so every
     * such name gets its tab.
     */
    method AddCameraTabs(cameraNames: seq<string>)
      modifies this
      ensures tabs == AddPass(old(tabs), cameraNames)
    {
      ghost var original := tabs;
      var k := 0;
      while k < |cameraNames|
        invariant 0 <= k <= |cameraNames|
        invariant AddPass(tabs, cameraNames[k..]) == AddPass(original, cameraNames)
      {
        assert cameraNames[k..][1..] == cameraNames[k + 1..];
        var hasTab := CameraTabExists(cameraNames[k]);
        if !hasTab {
          var camera := qhyccd.CameraNamed(cameraNames[k]);
          tabs := tabs + [cameraNames[k]];
        }
        k := k + 1;
      }
      assert cameraNames[k..] == [];
    }

    /** `updateCameraList()` as written: the add pass, then the removal pass that skips. */
    method UpdateCameraList(cameraNames: seq<string>)
      modifies this
      ensures tabs == RemovePass(AddPass(old(tabs), cameraNames), cameraNames, 0)
    {
      AddCameraTabs(cameraNames);
      ghost var added := tabs;
      var tabIndex := 0;
      while tabIndex < |tabs|
        invariant 0 <= tabIndex <= |tabs| + 1
        invariant RemovePass(tabs, cameraNames, tabIndex) == RemovePass(added, cameraNames, 0)
        decreases |tabs| - tabIndex
      {
        if tabs[tabIndex] !in cameraNames {
          tabs := tabs[..tabIndex] + tabs[tabIndex + 1..];
        }
        tabIndex := tabIndex + 1;
      }
    }

    /** The removal loop as intended: after a removal the same index is looked at again. */
    method RemoveStaleTabs(cameraNames: seq<string>)
      modifies this
      ensures tabs == RemoveStale(old(tabs), cameraNames)
    {
      ghost var original := tabs;
      var tabIndex := 0;
      while tabIndex < |tabs|
        invariant 0 <= tabIndex <= |tabs|
        invariant tabs[..tabIndex] + RemoveStale(tabs[tabIndex..], cameraNames) == RemoveStale(original, cameraNames)
        decreases |tabs| - tabIndex
      {
        assert tabs[tabIndex..] == [tabs[tabIndex]] + tabs[tabIndex + 1..];
        if tabs[tabIndex] !in cameraNames {
          tabs := tabs[..tabIndex] + tabs[tabIndex + 1..];
        } else {
          assert tabs[..tabIndex + 1] == tabs[..tabIndex] + [tabs[tabIndex]];
          tabIndex := tabIndex + 1;
        }
      }
      assert tabs[tabIndex..] == [];
    }

    /** `updateCameraList()` with the intended removal loop: the tabs end up exactly the listed names. */
    method UpdateCameraListCorrected(cameraNames: seq<string>)
      modifies this
      ensures tabs == RemoveStale(AddPass(old(tabs), cameraNames), cameraNames)
      ensures forall t :: t in tabs <==> t in cameraNames
      ensures NoDuplicates(old(tabs)) ==> NoDuplicates(tabs)
    {
      AddCameraTabs(cameraNames);
      ghost var added := tabs;
      RemoveStaleTabs(cameraNames);
      AddPassShape(old(tabs), cameraNames);
      RemoveStaleKeepsExactlyListed(added, cameraNames);
      if NoDuplicates(old(tabs)) {
        AddPassNoDuplicates(old(tabs), cameraNames);
        RemoveStaleNoDuplicates(added, cameraNames);
      }
    }
  }

  /** Removing tabs cannot create a duplicate. */
  lemma {:induction false} RemoveStaleNoDuplicates(tabs: seq<string>, names: seq<string>)
    requires NoDuplicates(tabs)
    ensures NoDuplicates(RemoveStale(tabs, names))
    decreases |tabs|
  {
    if tabs != [] {
      assert NoDuplicates(tabs[1..]) by {
        forall p, q | 0 <= p < q < |tabs[1..]| ensures tabs[1..][p] != tabs[1..][q] {
          assert tabs[1..][p] == tabs[p + 1] && tabs[1..][q] == tabs[q + 1];
        }
      }
      RemoveStaleNoDuplicates(tabs[1..], names);
      RemoveStaleKeepsExactlyListed(tabs[1..], names);
      assert tabs[0] !in tabs[1..];
    }
  }
}
