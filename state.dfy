/**
 * The process-wide trading mode (`src/utils/state.py`): a singleton whose
 * mode starts as "paper" and changes only to "real" or "paper".
 */
module State {

  predicate IsMode(m: string) {
    m == "real" || m == "paper"
  }

  /** The mode after `set_mode(requested)`: an unknown value is ignored. */
  function NextMode(current: string, requested: string): (m: string)
    ensures IsMode(requested) ==> m == requested
    ensures !IsMode(requested) ==> m == current
  {
    if IsMode(requested) then requested else current
  }

  /** The mode after a series of `set_mode` calls. */
  function ModeAfter(start: string, requests: seq<string>): string
    decreases |requests|
  {
    if requests == [] then start
    else ModeAfter(NextMode(start, requests[0]), requests[1..])
  }

  /** When no request names a mode, `get_mode()` still returns the starting mode. */
  lemma {:induction false} ModeAfterNoneAccepted(start: string, requests: seq<string>)
    requires forall i :: 0 <= i < |requests| ==> !IsMode(requests[i])
    ensures ModeAfter(start, requests) == start
    decreases |requests|
  {
    if requests != [] {
      var rest := requests[1..];
      assert !IsMode(requests[0]);
      assert forall j :: 0 <= j < |rest| ==> !IsMode(rest[j]) by {
        forall j | 0 <= j < |rest| ensures !IsMode(rest[j]) {
          assert rest[j] == requests[j + 1];
        }
      }
      ModeAfterNoneAccepted(start, rest);
    }
  }

  /**
   * `get_mode()` after a series of `set_mode` calls returns the last
   * accepted request.
   */
  lemma {:induction false} ModeAfterIsLastAccepted(start: string, requests: seq<string>, i: nat)
    requires i < |requests| && IsMode(requests[i])
    requires forall j :: i < j < |requests| ==> !IsMode(requests[j])
    ensures ModeAfter(start, requests) == requests[i]
    decreases |requests|
  {
    var rest := requests[1..];
    if i > 0 {
      assert rest[i - 1] == requests[i];
      assert forall j :: i - 1 < j < |rest| ==> !IsMode(rest[j]) by {
        forall j | i - 1 < j < |rest| ensures !IsMode(rest[j]) {
          assert rest[j] == requests[j + 1];
        }
      }
      ModeAfterIsLastAccepted(NextMode(start, requests[0]), rest, i - 1);
    } else {
      assert forall j :: 0 <= j < |rest| ==> !IsMode(rest[j]) by {
        forall j | 0 <= j < |rest| ensures !IsMode(rest[j]) {
          assert rest[j] == requests[j + 1];
        }
      }
      ModeAfterNoneAccepted(requests[0], rest);
    }
  }

  class GlobalState {
    var tradingMode: string

    /** The mode is always one of the two accepted values. */
    predicate Valid()
      reads this
    {
      IsMode(tradingMode)
    }

    /** The first construction: the mode defaults to "paper". */
    constructor ()
      ensures tradingMode == "paper" && Valid()
    {
      tradingMode := "paper";
    }

    method SetMode(mode: string)
      requires Valid()
      modifies this
      ensures tradingMode == NextMode(old(tradingMode), mode)
      ensures Valid()
    {
      if mode == "real" || mode == "paper" {
        tradingMode := mode;
      }
    }

    method GetMode() returns (m: string)
      requires Valid()
      ensures m == tradingMode && IsMode(m)
    {
      m := tradingMode;
    }
  }

  /** The class attribute `_instance` that `GlobalState.__new__` caches. */
  class GlobalStateClass {
    var instance: GlobalState?

    /** A cached instance, once there is one, holds an accepted mode. */
    predicate Valid()
      reads this, instance
    {
      instance != null ==> instance.Valid()
    }

    constructor ()
      ensures instance == null && Valid()
    {
      instance := null;
    }

    /**
     * `GlobalState()`: the first call creates the instance with mode
     * "paper"; every later call returns that same instance, mode untouched.
     * Either way the instance returned holds an accepted mode.
     */
    method New() returns (s: GlobalState)
      requires Valid()
      modifies this
      ensures instance == s && Valid() && s.Valid()
      ensures old(instance) != null ==> s == old(instance) && s.tradingMode == old(instance.tradingMode)
      ensures old(instance) == null ==> fresh(s) && s.tradingMode == "paper"
    {
      if instance == null {
        instance := new GlobalState();
      }
      s := instance;
    }
  }
}
