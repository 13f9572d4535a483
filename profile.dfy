/**
 * The profile store (src/hooks/useProfile.tsx): a six-field record held by the
 * provider, a partial merge, an avatar update, and the guard of the hook.
 */
module Profile {
  import opened Wrappers

  datatype ProfileData = ProfileData(displayName: string, username: string, email: string,
                                     bio: string, avatarUrl: string, huggingfaceToken: string)

  /** The six keys of a profile. */
  datatype Field = DisplayName | Username | Email | Bio | AvatarUrl | HuggingfaceToken

  /** `Partial<ProfileData>`: the keys present and their values. */
  type PartialProfile = map<Field, string>

  /** The provider's initial state. */
  const InitialProfile: ProfileData := ProfileData("", "", "", "", "", "")

  /** The value stored under a key. */
  function Get(p: ProfileData, f: Field): string
  {
    match f
    case DisplayName => p.displayName
    case Username => p.username
    case Email => p.email
    case Bio => p.bio
    case AvatarUrl => p.avatarUrl
    case HuggingfaceToken => p.huggingfaceToken
  }

  /** Two profiles that agree on every key are equal. */
  lemma ProfileExtensional(p: ProfileData, q: ProfileData)
    requires forall f :: Get(p, f) == Get(q, f)
    ensures p == q
  {
    assert Get(p, DisplayName) == Get(q, DisplayName);
    assert Get(p, Username) == Get(q, Username);
    assert Get(p, Email) == Get(q, Email);
    assert Get(p, Bio) == Get(q, Bio);
    assert Get(p, AvatarUrl) == Get(q, AvatarUrl);
    assert Get(p, HuggingfaceToken) == Get(q, HuggingfaceToken);
  }

  /** The value under `f` after the merge: the partial's when it has the key. */
  function Pick(prev: ProfileData, data: PartialProfile, f: Field): string
  {
    if f in data then data[f] else Get(prev, f)
  }

  /** `{ ...prev, ...data }`: every key present in `data` is overwritten, every
      other key keeps its value. */
  function Merge(prev: ProfileData, data: PartialProfile): (r: ProfileData)
    ensures forall f :: f in data ==> Get(r, f) == data[f]
    ensures forall f :: f !in data ==> Get(r, f) == Get(prev, f)
  {
    ProfileData(Pick(prev, data, DisplayName), Pick(prev, data, Username), Pick(prev, data, Email),
                Pick(prev, data, Bio), Pick(prev, data, AvatarUrl), Pick(prev, data, HuggingfaceToken))
  }

  /** `{ ...prev, avatarUrl }`: the avatar is replaced and nothing else changes. */
  function WithAvatar(prev: ProfileData, avatarUrl: string): (r: ProfileData)
    ensures Get(r, AvatarUrl) == avatarUrl
    ensures forall f :: f != AvatarUrl ==> Get(r, f) == Get(prev, f)
  {
    prev.(avatarUrl := avatarUrl)
  }

  /** Every field of the initial profile is empty. */
  lemma InitialIsEmpty()
    ensures forall f :: Get(InitialProfile, f) == ""
  {
  }

  /** Merging an empty partial changes nothing. */
  lemma MergeEmpty(p: ProfileData)
    ensures Merge(p, map[]) == p
  {
    ProfileExtensional(Merge(p, map[]), p);
  }

  /** Merging the same partial twice is merging it once. */
  lemma MergeIdempotent(p: ProfileData, data: PartialProfile)
    ensures Merge(Merge(p, data), data) == Merge(p, data)
  {
    ProfileExtensional(Merge(Merge(p, data), data), Merge(p, data));
  }

  /** Two merges in a row are one merge of the combined partial, the later one
      winning on shared keys. */
  lemma MergeCompose(p: ProfileData, a: PartialProfile, b: PartialProfile)
    ensures Merge(Merge(p, a), b) == Merge(p, a + b)
  {
    ProfileExtensional(Merge(Merge(p, a), b), Merge(p, a + b));
  }

  /** The avatar update is the merge of a partial holding only the avatar. */
  lemma AvatarIsMerge(p: ProfileData, avatarUrl: string)
    ensures WithAvatar(p, avatarUrl) == Merge(p, map[AvatarUrl := avatarUrl])
  {
    ProfileExtensional(WithAvatar(p, avatarUrl), Merge(p, map[AvatarUrl := avatarUrl]));
  }

  /** The context provider: it owns the one profile record. */
  class ProfileProvider {
    var profileData: ProfileData

    constructor ()
      ensures profileData == InitialProfile
    {
      profileData := InitialProfile;
    }

    method UpdateProfile(data: PartialProfile)
      modifies this
      ensures profileData == Merge(old(profileData), data)
    {
      profileData := Merge(profileData, data);
    }

    method UpdateAvatar(avatarUrl: string)
      modifies this
      ensures profileData == WithAvatar(old(profileData), avatarUrl)
    {
      profileData := WithAvatar(profileData, avatarUrl);
    }
  }

  const MissingProviderMessage: string := "useProfile must be used within a ProfileProvider"

  /** The hook: the enclosing provider, or the thrown error when there is none. */
  function UseProfile(context: Option<ProfileProvider>): (r: Result<ProfileProvider>)
    ensures r.Ok? <==> context.Some?
    ensures r.Ok? ==> r.value == context.value
    ensures r.Err? ==> r.error == MissingProviderMessage
  {
    match context
    case Some(provider) => Ok(provider)
    case None => Err(MissingProviderMessage)
  }
}
