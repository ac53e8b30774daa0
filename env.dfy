/**
 * The process environment as the setup scripts read it: a variable counts as
 * set only when it is defined and not empty (`!process.env[name]` fails for
 * both).
 */
module Env {
  import opened Js

  type Environment = map<string, string>

  predicate Present(env: Environment, name: string) {
    name in env && env[name] != ""
  }

  /** "Not set", as a test to filter by. */
  function Unset(env: Environment): string -> bool {
    n => !Present(env, n)
  }

  /** The names that are not set, in the order given. */
  function MissingNames(names: seq<string>, env: Environment): (missing: seq<string>)
    ensures forall n :: n in missing <==> n in names && !Present(env, n)
    ensures |missing| <= |names|
  {
    if names == [] then []
    else
      var init := names[..|names| - 1];
      var last := names[|names| - 1];
      assert names == init + [last];
      MissingNames(init, env) + (if Present(env, last) then [] else [last])
  }

  /**
   * The missing names are the order-preserving selection of the names that
   * are not set: `MissingNames` is the filter by "not present".
   */
  lemma {:induction false} MissingNamesIsFilter(names: seq<string>, env: Environment)
    ensures MissingNames(names, env) == Filter(names, Unset(env))
  {
    var keep := Unset(env);
    if names != [] {
      var init := names[..|names| - 1];
      var last := names[|names| - 1];
      MissingNamesIsFilter(init, env);
      FilterLast(names, keep);
    }
  }

  /** Nothing is missing exactly when every name is set. */
  lemma NothingMissingMeansAllPresent(names: seq<string>, env: Environment)
    ensures MissingNames(names, env) == [] <==> forall i :: 0 <= i < |names| ==> Present(env, names[i])
  {
    if MissingNames(names, env) != [] {
      assert MissingNames(names, env)[0] in MissingNames(names, env);
    }
  }

  /** The missing names of a longer list extend those of its prefix: what the collecting loops rely on. */
  lemma MissingNamesSnoc(names: seq<string>, i: nat, env: Environment)
    requires i < |names|
    ensures MissingNames(names[..i + 1], env) ==
            MissingNames(names[..i], env) + (if Present(env, names[i]) then [] else [names[i]])
  {
    assert names[..i + 1][..i] == names[..i];
  }
}
