/** The local callback receiver's shared slot: it starts empty, the callback
    route overwrites it whenever a non-empty `code` query parameter arrives, and
    readers see the current value without clearing it. */
module AuthCodeServer {
  import opened Wrappers

  const NotFoundMessage := "Authorization code not found."
  const CompleteMessage := "\U{2705} Authorization complete! You may return to your app."

  /** The slot after one callback carrying the query parameter `arg`. */
  function AfterCallback(slot: Option<string>, arg: Option<string>): Option<string>
  {
    if Truthy(arg) then arg else slot
  }

  /** The slot after a series of callbacks, in arrival order. */
  function SlotAfter(slot: Option<string>, args: seq<Option<string>>): Option<string>
    decreases |args|
  {
    if args == [] then slot else SlotAfter(AfterCallback(slot, args[0]), args[1..])
  }

  /** Whether any of the callbacks carried a non-empty code. */
  predicate AnyCode(args: seq<Option<string>>)
  {
    exists i :: 0 <= i < |args| && Truthy(args[i])
  }

  /** The last non-empty code among the callbacks. */
  function LastCode(args: seq<Option<string>>): (c: Option<string>)
    requires AnyCode(args)
    ensures Truthy(c)
    ensures exists i :: 0 <= i < |args| && args[i] == c && forall j :: i < j < |args| ==> !Truthy(args[j])
  {
    var last := args[|args| - 1];
    if Truthy(last) then last
    else
      var init := args[..|args| - 1];
      assert AnyCode(init) by {
        var i :| 0 <= i < |args| && Truthy(args[i]);
        assert init[i] == args[i];
      }
      var c := LastCode(init);
      var i :| 0 <= i < |init| && init[i] == c && forall j :: i < j < |init| ==> !Truthy(init[j]);
      assert args[i] == c;
      assert forall j :: i < j < |init| ==> args[j] == init[j];
      c
  }

  lemma {:induction false} SlotAfterAppend(slot: Option<string>, args: seq<Option<string>>, arg: Option<string>)
    ensures SlotAfter(slot, args + [arg]) == AfterCallback(SlotAfter(slot, args), arg)
    decreases |args|
  {
    if args != [] {
      assert (args + [arg])[1..] == args[1..] + [arg];
      SlotAfterAppend(AfterCallback(slot, args[0]), args[1..], arg);
    }
  }

  /** Last write wins: after any series of callbacks the slot holds the last
      non-empty code delivered, or what it held before when none was. */
  lemma {:induction false} SlotHoldsLastCode(slot: Option<string>, args: seq<Option<string>>)
    ensures AnyCode(args) ==> SlotAfter(slot, args) == LastCode(args)
    ensures !AnyCode(args) ==> SlotAfter(slot, args) == slot
  {
    if args != [] {
      var init := args[..|args| - 1];
      var last := args[|args| - 1];
      assert args == init + [last];
      SlotAfterAppend(slot, init, last);
      SlotHoldsLastCode(slot, init);
      if !Truthy(last) {
        if AnyCode(args) {
          var i :| 0 <= i < |args| && Truthy(args[i]);
          assert init[i] == args[i];
        }
        if AnyCode(init) {
          var i :| 0 <= i < |init| && Truthy(init[i]);
          assert args[i] == init[i];
        }
      }
    }
  }

  /** Once the slot holds a code, no callback can make it empty again. */
  lemma {:induction false} CodeNeverCleared(slot: Option<string>, args: seq<Option<string>>)
    requires Truthy(slot)
    ensures Truthy(SlotAfter(slot, args))
    decreases |args|
  {
    if args != [] {
      CodeNeverCleared(AfterCallback(slot, args[0]), args[1..]);
    }
  }

  /** The process-wide holder `{"code": None}`. */
  class AuthCodeHolder {
    var code: Option<string>

    constructor ()
      ensures code == None
    {
      code := None;
    }

    /** The `/callback` route; `arg` is the `code` query parameter, `None` when absent. */
    method Callback(arg: Option<string>) returns (response: string)
      modifies this
      ensures response == NotFoundMessage <==> !Truthy(arg)
      ensures Truthy(arg) ==> response == CompleteMessage && code == arg
      ensures !Truthy(arg) ==> code == old(code)
      ensures code == AfterCallback(old(code), arg)
    {
      if !Truthy(arg) {
        return NotFoundMessage;
      }
      code := arg;
      response := CompleteMessage;
    }

    /** `get_auth_code`: the current value, left in place. */
    method GetAuthCode() returns (c: Option<string>)
      ensures c == code
    {
      c := code;
    }
  }
}
