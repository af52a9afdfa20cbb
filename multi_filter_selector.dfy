/** `MultiFilterSelector`: three groups of UI toggles (countries, roles, states)
    whose checked labels become the plot's allow-lists. */
module FilterSelection {
  import opened Common
  import opened Text
  import opened PlotRoot

  /** A UI `Toggle`: whether it is on, its object name, and the text of its
      `TMP_Text` child (`None` when it has no such child). */
  class Toggle {
    var isOn: bool
    const name: string
    const childText: Option<string>

    constructor (name: string, childText: Option<string>, isOn: bool)
      ensures this.name == name && this.childText == childText && this.isOn == isOn
    {
      this.name := name;
      this.childText := childText;
      this.isOn := isOn;
    }
  }

  /** `GetToggleLabel`: the child's text, trimmed, or else the toggle's name. */
  function ToggleLabel(t: Toggle): string
  {
    if t.childText.Some? then Trim(t.childText.value) else t.name
  }

  /** The labels of the toggles that are on, in order; null entries are skipped. */
  function SelectedLabels(ts: seq<Toggle?>): seq<string>
    reads ts
  {
    if ts == [] then []
    else
      var t := ts[|ts| - 1];
      SelectedLabels(ts[..|ts| - 1]) + (if t != null && t.isOn then [ToggleLabel(t)] else [])
  }

  /** The toggles a group holds, without the nulls. */
  function Members(toggles: array?<Toggle?>): set<Toggle>
    reads toggles
  {
    if toggles == null then {} else set i | 0 <= i < toggles.Length && toggles[i] != null :: toggles[i]
  }

  /** What `GetSelected` returns for a group: nothing for a null array. */
  function Selection(toggles: array?<Toggle?>): seq<string>
    reads toggles, if toggles == null then [] else toggles[..]
  {
    if toggles == null then [] else SelectedLabels(toggles[..])
  }

  /** Every toggle of the group is off. */
  predicate AllOff(toggles: array?<Toggle?>)
    reads toggles, if toggles == null then [] else toggles[..]
  {
    toggles != null ==> forall i :: 0 <= i < toggles.Length && toggles[i] != null ==> !toggles[i].isOn
  }

  /** There are never more labels than toggles. */
  lemma {:induction false} SelectedLabelsBound(ts: seq<Toggle?>)
    ensures |SelectedLabels(ts)| <= |ts|
  {
    if ts != [] {
      SelectedLabelsBound(ts[..|ts| - 1]);
    }
  }

  /** Every selected label is the label of some toggle that is on. */
  lemma {:induction false} SelectedLabelsFromOnToggles(ts: seq<Toggle?>)
    ensures forall text :: text in SelectedLabels(ts) ==>
              exists i :: 0 <= i < |ts| && ts[i] != null && ts[i].isOn && ToggleLabel(ts[i]) == text
  {
    if ts != [] {
      var n := |ts| - 1;
      var init := ts[..n];
      SelectedLabelsFromOnToggles(init);
      forall text | text in SelectedLabels(ts)
        ensures exists i :: 0 <= i < |ts| && ts[i] != null && ts[i].isOn && ToggleLabel(ts[i]) == text
      {
        if text in SelectedLabels(init) {
          var i :| 0 <= i < n && init[i] != null && init[i].isOn && ToggleLabel(init[i]) == text;
          assert ts[i] == init[i];
        } else {
          assert ts[n] != null && ts[n].isOn && ToggleLabel(ts[n]) == text;
        }
      }
    }
  }

  /** The label of every toggle that is on is selected. */
  lemma {:induction false} OnTogglesSelected(ts: seq<Toggle?>)
    ensures forall i :: 0 <= i < |ts| && ts[i] != null && ts[i].isOn ==> ToggleLabel(ts[i]) in SelectedLabels(ts)
  {
    if ts != [] {
      var n := |ts| - 1;
      var init := ts[..n];
      OnTogglesSelected(init);
      forall i | 0 <= i < |ts| && ts[i] != null && ts[i].isOn
        ensures ToggleLabel(ts[i]) in SelectedLabels(ts)
      {
        var last := if ts[n] != null && ts[n].isOn then [ToggleLabel(ts[n])] else [];
        assert SelectedLabels(ts) == SelectedLabels(init) + last;
        if i < n {
          assert init[i] == ts[i];
          assert ToggleLabel(ts[i]) in SelectedLabels(init);
        } else {
          assert ToggleLabel(ts[i]) in last;
        }
      }
    }
  }

  /** With every toggle off, nothing is selected. */
  lemma {:induction false} AllOffSelectsNothing(ts: seq<Toggle?>)
    requires forall i :: 0 <= i < |ts| && ts[i] != null ==> !ts[i].isOn
    ensures SelectedLabels(ts) == []
  {
    if ts != [] {
      AllOffSelectsNothing(ts[..|ts| - 1]);
    }
  }

  /** The labels depend on the toggles' switches only, so a step that leaves every
      switch as it was leaves the selection as it was. */
  twostate lemma {:induction false} SameSwitchesSameLabels(ts: seq<Toggle?>)
    requires forall i :: 0 <= i < |ts| && ts[i] != null ==> ts[i].isOn == old(ts[i].isOn)
    ensures SelectedLabels(ts) == old(SelectedLabels(ts))
  {
    if ts != [] {
      SameSwitchesSameLabels(ts[..|ts| - 1]);
    }
  }

  twostate lemma SameSwitchesSameSelection(toggles: array?<Toggle?>)
    requires toggles != null ==> toggles[..] == old(toggles[..])
    requires toggles != null ==> forall i :: 0 <= i < toggles.Length && toggles[i] != null ==> toggles[i].isOn == old(toggles[i].isOn)
    ensures Selection(toggles) == old(Selection(toggles))
  {
    if toggles != null {
      SameSwitchesSameLabels(toggles[..]);
    }
  }

  /** A group whose toggles are all off selects nothing. */
  lemma GroupOffSelectsNothing(toggles: array?<Toggle?>)
    requires AllOff(toggles)
    ensures Selection(toggles) == []
  {
    if toggles != null {
      AllOffSelectsNothing(toggles[..]);
    }
  }

  /** A step that leaves every switch of the group as it was keeps it all off. */
  twostate lemma StillOff(toggles: array?<Toggle?>)
    requires old(AllOff(toggles))
    requires toggles != null ==> toggles[..] == old(toggles[..])
    requires toggles != null ==> forall i :: 0 <= i < toggles.Length && toggles[i] != null ==> toggles[i].isOn == old(toggles[i].isOn)
    ensures AllOff(toggles)
  {
  }

  class MultiFilterSelector {
    const countryToggles: array?<Toggle?>
    const roleToggles: array?<Toggle?>
    const stateToggles: array?<Toggle?>
    /** The static `AircraftPlotRootController.Instance`, as this component sees it. */
    const instance: AircraftPlotRootController?
    /** `_controller`. */
    var controller: AircraftPlotRootController?

    /** Every toggle of the three groups. */
    function AllToggles(): set<Toggle>
      reads countryToggles, roleToggles, stateToggles
    {
      Members(countryToggles) + Members(roleToggles) + Members(stateToggles)
    }

    constructor (countries: array?<Toggle?>, roles: array?<Toggle?>, states: array?<Toggle?>,
                 instance: AircraftPlotRootController?)
      ensures countryToggles == countries && roleToggles == roles && stateToggles == states
      ensures this.instance == instance && controller == null
    {
      countryToggles := countries;
      roleToggles := roles;
      stateToggles := states;
      this.instance := instance;
      controller := null;
    }

    /** `Start`: takes the controller instance, turns every toggle off and applies
        once, so a controller starts with no filters and shows every record.
        (Registering the listeners in between is `ToggleChanged`.) */
    method Start()
      modifies this`controller, AllToggles(), instance
      ensures controller == instance
      ensures AllOff(countryToggles) && AllOff(roleToggles) && AllOff(stateToggles)
      ensures controller != null ==> controller.CurrentFilters() == NoFilters && controller.Reapplied()
    {
      controller := instance;
      ClearFilters();
    }

    /** `SetAllOff`: turns every toggle of the group off, without notifying its listeners. */
    method SetAllOff(toggles: array?<Toggle?>)
      modifies Members(toggles)
      ensures AllOff(toggles)
      ensures forall t :: t in Members(toggles) ==> !t.isOn
    {
      if toggles == null {
        return;
      }
      for i := 0 to toggles.Length
        invariant forall j :: 0 <= j < i && toggles[j] != null ==> !toggles[j].isOn
      {
        var t := toggles[i];
        if t == null {
          continue;
        }
        t.isOn := false;
      }
    }

    /** `GetSelected`: the labels of the group's toggles that are on, in array order. */
    method GetSelected(toggles: array?<Toggle?>) returns (result: seq<string>)
      ensures result == Selection(toggles)
    {
      result := [];
      if toggles == null {
        return;
      }
      for i := 0 to toggles.Length
        invariant result == SelectedLabels(toggles[..i])
      {
        assert toggles[..i + 1][..i] == toggles[..i];
        var t := toggles[i];
        if t != null && t.isOn {
          result := result + [ToggleLabel(t)];
        }
      }
      assert toggles[..toggles.Length] == toggles[..];
    }

    /** `ApplyFilters`: looks the controller up if it has none, and gives it the
        three selections; without a controller it does nothing. */
    method ApplyFilters()
      modifies this`controller, controller, instance
      ensures controller == if old(controller) == null then instance else old(controller)
      ensures controller != null ==>
                controller.CurrentFilters()
                == AllowLists(Some(old(Selection(countryToggles))), Some(old(Selection(roleToggles))),
                              Some(old(Selection(stateToggles))))
      ensures controller != null ==> controller.Reapplied()
    {
      if controller == null {
        controller := instance;
        if controller == null {
          return;
        }
      }
      SendSelections(controller);
    }

    /** The end of `ApplyFilters`: reads the three selections and hands them to `c`. */
    method SendSelections(c: AircraftPlotRootController)
      modifies c
      ensures c.CurrentFilters()
              == AllowLists(Some(old(Selection(countryToggles))), Some(old(Selection(roleToggles))),
                            Some(old(Selection(stateToggles))))
      ensures c.Reapplied()
    {
      var selectedCountries := GetSelected(countryToggles);
      var selectedRoles := GetSelected(roleToggles);
      var selectedStates := GetSelected(stateToggles);
      SameSwitchesSameSelection(countryToggles);
      SameSwitchesSameSelection(roleToggles);
      SameSwitchesSameSelection(stateToggles);
      c.SetMultiFilters(Some(selectedCountries), Some(selectedRoles), Some(selectedStates));
    }

    /** The listener `HookToggles` adds: the user switches a toggle, and the filters are applied again. */
    method ToggleChanged(t: Toggle, value: bool)
      requires t in AllToggles() && t.isOn != value
      modifies t, this`controller, controller, instance
      ensures t.isOn == value
      ensures controller == if old(controller) == null then instance else old(controller)
      ensures controller != null ==>
                controller.CurrentFilters()
                == AllowLists(Some(Selection(countryToggles)), Some(Selection(roleToggles)), Some(Selection(stateToggles)))
      ensures controller != null ==> controller.Reapplied()
    {
      t.isOn := value;
      ghost var selections := AllowLists(Some(Selection(countryToggles)), Some(Selection(roleToggles)),
                                         Some(Selection(stateToggles)));
      label before:
      ApplyFilters();
      assert controller != null ==> controller.CurrentFilters() == selections;
      SameSwitchesSameSelection@before(countryToggles);
      SameSwitchesSameSelection@before(roleToggles);
      SameSwitchesSameSelection@before(stateToggles);
    }

    /** `ClearFilters`, the reset button: every toggle off, then apply, so the
        controller receives three empty lists and shows the whole dataset. */
    method ClearFilters()
      modifies AllToggles(), this`controller, controller, instance
      ensures AllOff(countryToggles) && AllOff(roleToggles) && AllOff(stateToggles)
      ensures controller == if old(controller) == null then instance else old(controller)
      ensures controller != null ==> controller.CurrentFilters() == NoFilters && controller.Reapplied()
    {
      SetAllGroupsOff();
      label cleared:
      ApplyFilters();
      StillOff@cleared(countryToggles);
      StillOff@cleared(roleToggles);
      StillOff@cleared(stateToggles);
    }

    /** The first half of `ClearFilters`: every group off, so every selection is empty. */
    method SetAllGroupsOff()
      modifies AllToggles()
      ensures AllOff(countryToggles) && AllOff(roleToggles) && AllOff(stateToggles)
      ensures Selection(countryToggles) == [] && Selection(roleToggles) == [] && Selection(stateToggles) == []
    {
      SetAllOff(countryToggles);
      SetAllOff(roleToggles);
      SetAllOff(stateToggles);
      assert AllOff(countryToggles) && AllOff(roleToggles);
      GroupOffSelectsNothing(countryToggles);
      GroupOffSelectsNothing(roleToggles);
      GroupOffSelectsNothing(stateToggles);
    }
  }
}
