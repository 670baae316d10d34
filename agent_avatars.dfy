/** The emoji avatars of the agents and of the user. */
module AgentAvatars {
  import opened Strings

  /** The known agent names, lower case, and their avatars. */
  const Avatars: map<string, string> :=
    map["tutor" := "\U{1F4DA}", "scheduler" := "\U{1F4C5}", "analyzer" := "\U{1F50D}", "motivator" := "\U{1F4AA}",
        "router" := "\U{1F9ED}", "user" := "\U{1F464}", "system" := "\U{1F916}"]

  const RobotAvatar: string := "\U{1F916}"

  /** `get_agent_avatar`: the avatar of the lower-cased name, the robot for a name it does not
      know. */
  function AgentAvatar(name: string): (a: string)
    ensures Lower(name) in Avatars ==> a == Avatars[Lower(name)]
    ensures Lower(name) !in Avatars ==> a == RobotAvatar
  {
    if Lower(name) in Avatars then Avatars[Lower(name)] else RobotAvatar
  }

  /** The lookup ignores case. */
  lemma AgentAvatarIgnoresCase(name: string)
    ensures AgentAvatar(Lower(name)) == AgentAvatar(name)
  {
    LowerIdempotent(name);
  }

  /** The system's avatar and that of every unknown name are the same robot. */
  lemma SystemAvatarIsDefault(name: string)
    requires Lower(name) !in Avatars
    ensures AgentAvatar(name) == AgentAvatar("system") == RobotAvatar
  {
    assert Lower("system") == "system";
  }

  /** `get_user_avatar`: always the person silhouette. */
  function UserAvatar(): (a: string)
    ensures a == "\U{1F464}" && a == AgentAvatar("user")
  {
    assert Lower("user") == "user";
    Avatars["user"]
  }
}
