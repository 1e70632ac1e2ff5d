/**
 * The profile registry: a closed map from profile names to profiles, in
 * which "default" is the only name.
 */
module ProfileRegistry {
  import opened Strings
  import opened Errors
  import opened DefaultSchema

  /** `available_profiles()`. */
  function AvailableProfiles(): seq<string> {
    ["default"]
  }

  /** The prefix of the error text for an unknown name. */
  const UnknownProfile: string := "未知的 Schema Profile: '"

  /**
   * `get(name)`: the profile of that name, or a configuration error whose
   * message names the unknown profile and the available ones.
   */
  function Get(name: string): (r: Result<DefaultProfile>)
    ensures r.Ok? <==> name == "default"
    ensures r.Ok? ==> Name(r.value) == name
    ensures r.Err? ==> r.error.Config? && IsPrefix(UnknownProfile, r.error.msg) && Contains(r.error.msg, name)
  {
    if name == "default" then Ok(DefaultProfile)
    else
      var msg := UnknownProfile + name + "'. 可用的 Profile: default";
      ContainsMiddle(UnknownProfile, name, "'. 可用的 Profile: default");
      assert msg[..|UnknownProfile|] == UnknownProfile;
      Err(Config(msg))
  }

  /** `default_profile()`: the profile `get("default")` returns. */
  function DefaultProfileOf(): (p: DefaultProfile)
    ensures Name(p) == "default" && Get(Name(p)) == Ok(p)
  {
    DefaultProfile
  }

  /**
   * `get` succeeds exactly on the listed names, with a profile of that
   * name; the error's display text carries the unknown name.
   */
  lemma GetMatchesAvailable(name: string)
    ensures Get(name).Ok? <==> name in AvailableProfiles()
    ensures Get(name).Ok? ==> Name(Get(name).value) == name
    ensures Get(name).Err? ==> Contains(ToString(Get(name).error), name) && !IsRetryable(Get(name).error)
  {
    if name != "default" {
      var e := Get(name).error;
      ContainsTransitive(ToString(e), e.msg, name);
    }
  }
}
