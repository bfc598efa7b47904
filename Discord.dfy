/** Identity redaction (apps/backend/src/discord.ts). The network lookup
    `fetchDiscordUser` is an oracle: the worker router takes it as a
    function parameter. */
module Discord {
  import opened WsTypes

  /** The identity-provider user as the coordinator receives it: the public
      profile plus the private fields redaction must drop. Optional fields
      the JSON lacks are `None`; a missing or empty `id` is `""`. */
  datatype APIUser = APIUser(
    id: string,
    username: string,
    globalName: Option<string>,
    avatar: Option<string>,
    discriminator: string,
    email: Option<string>,
    verified: Option<bool>,
    locale: Option<string>,
    mfaEnabled: Option<bool>,
    flags: Option<int>)

  /** The five public fields two users agree on when they look the same to others. */
  predicate SamePublicProfile(u: APIUser, v: APIUser)
  {
    && u.id == v.id
    && u.username == v.username
    && u.globalName == v.globalName
    && u.avatar == v.avatar
    && u.discriminator == v.discriminator
  }

  /** `stripPrivateInfo`: the redacted profile carries exactly the five
      public values of its input. */
  function StripPrivateInfo(u: APIUser): (r: DiscordUser)
    ensures SamePublicProfile(u, AsAPIUser(r))
  {
    DiscordUser(u.id, u.username, u.globalName, u.avatar, u.discriminator)
  }

  /** A redacted profile passed where a full user is expected: the private
      fields are absent. */
  function AsAPIUser(d: DiscordUser): (u: APIUser)
    ensures u.email.None? && u.verified.None? && u.locale.None? && u.mfaEnabled.None? && u.flags.None?
  {
    APIUser(d.id, d.username, d.globalName, d.avatar, d.discriminator, None, None, None, None, None)
  }

  /** Redaction keeps exactly the public profile: two users give the same
      redacted profile if and only if their five public fields agree, so no
      private field can be recovered from the result. */
  lemma StripKeepsExactlyPublicProfile(u: APIUser, v: APIUser)
    ensures StripPrivateInfo(u) == StripPrivateInfo(v) <==> SamePublicProfile(u, v)
  {
  }

  /** Stripping twice is stripping once. */
  lemma StripIdempotent(u: APIUser)
    ensures StripPrivateInfo(AsAPIUser(StripPrivateInfo(u))) == StripPrivateInfo(u)
  {
  }

  /** `isHost` computed from the raw user agrees with comparing the host
      against the id stored in the roster entry. */
  lemma HostFlagFromStoredId(host: Option<string>, u: APIUser)
    ensures (host == Some(u.id)) == (host == Some(StripPrivateInfo(u).id))
  {
  }
}
