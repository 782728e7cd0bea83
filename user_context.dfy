/** The user's profile (context/UserContext.tsx): partial updates merged over
    the profile, the onboarding setters, the reset and the target pitch that
    setting a baseline derives. */
module UserContext {
  import opened Js
  import opened Types
  import PitchDetector
  import AsyncStorage

  /** `Partial<UserProfile>`: a supplied field is `Some`. */
  datatype ProfileUpdate = ProfileUpdate(
    id: Option<string>,
    firstName: Option<string>,
    ageRange: Option<AgeRange>,
    primaryGoal: Option<PrimaryGoal>,
    voicePerception: Option<VoicePerception>,
    experienceLevel: Option<ExperienceLevel>,
    dailyCommitment: Option<DailyCommitment>,
    onboardingCompleted: Option<bool>,
    onboardingStep: Option<int>,
    createdAt: Option<string>,
    baselinePitch: Option<real>,
    targetPitch: Option<real>)

  const NoUpdate := ProfileUpdate(None, None, None, None, None, None, None, None, None, None, None, None)

  function Pick<T>(old_: T, update: Option<T>): T {
    if update.Some? then update.value else old_
  }

  /** The supplied value, else the current one. */
  function Later<T>(first: Option<T>, second: Option<T>): Option<T> {
    if second.Some? then second else first
  }

  /** The profile already holds every field the update supplies. */
  predicate Satisfies(p: UserProfile, u: ProfileUpdate) {
    && (u.id.Some? ==> p.id == u.id.value)
    && (u.firstName.Some? ==> p.firstName == u.firstName.value)
    && (u.ageRange.Some? ==> p.ageRange == u.ageRange)
    && (u.primaryGoal.Some? ==> p.primaryGoal == u.primaryGoal)
    && (u.voicePerception.Some? ==> p.voicePerception == u.voicePerception)
    && (u.experienceLevel.Some? ==> p.experienceLevel == u.experienceLevel)
    && (u.dailyCommitment.Some? ==> p.dailyCommitment == u.dailyCommitment)
    && (u.onboardingCompleted.Some? ==> p.onboardingCompleted == u.onboardingCompleted.value)
    && (u.onboardingStep.Some? ==> p.onboardingStep == u.onboardingStep.value)
    && (u.createdAt.Some? ==> p.createdAt == u.createdAt.value)
    && (u.baselinePitch.Some? ==> p.baselinePitch == u.baselinePitch)
    && (u.targetPitch.Some? ==> p.targetPitch == u.targetPitch)
  }

  /** `{ ...user, ...updates }`: the result holds every supplied field, and an
      empty update leaves the profile as it is. */
  function Merge(user: UserProfile, u: ProfileUpdate): (r: UserProfile)
    ensures Satisfies(r, u)
    ensures u == NoUpdate ==> r == user
  {
    var r := UserProfile(
      Pick(user.id, u.id),
      Pick(user.firstName, u.firstName),
      Later(user.ageRange, u.ageRange),
      Later(user.primaryGoal, u.primaryGoal),
      Later(user.voicePerception, u.voicePerception),
      Later(user.experienceLevel, u.experienceLevel),
      Later(user.dailyCommitment, u.dailyCommitment),
      Pick(user.onboardingCompleted, u.onboardingCompleted),
      Pick(user.onboardingStep, u.onboardingStep),
      Pick(user.createdAt, u.createdAt),
      Later(user.baselinePitch, u.baselinePitch),
      Later(user.targetPitch, u.targetPitch));
    assert u == NoUpdate ==> r == user by {
      if u == NoUpdate {
        assert r.id == user.id && r.firstName == user.firstName && r.ageRange == user.ageRange;
      }
    }
    r
  }


  /** `{ ...u, ...v }`: the later update wins on the fields both supply. */
  function Then(u: ProfileUpdate, v: ProfileUpdate): ProfileUpdate {
    ProfileUpdate(
      Later(u.id, v.id), Later(u.firstName, v.firstName), Later(u.ageRange, v.ageRange),
      Later(u.primaryGoal, v.primaryGoal), Later(u.voicePerception, v.voicePerception),
      Later(u.experienceLevel, v.experienceLevel), Later(u.dailyCommitment, v.dailyCommitment),
      Later(u.onboardingCompleted, v.onboardingCompleted), Later(u.onboardingStep, v.onboardingStep),
      Later(u.createdAt, v.createdAt), Later(u.baselinePitch, v.baselinePitch),
      Later(u.targetPitch, v.targetPitch))
  }

  /** Two successive `updateUser` calls have the effect of one call with the
      two updates spread together. */
  lemma MergeComposes(user: UserProfile, u: ProfileUpdate, v: ProfileUpdate)
    ensures Merge(Merge(user, u), v) == Merge(user, Then(u, v))
  {
  }

  /** An update the profile already holds changes nothing, so every field
      the update does not supply is kept. */
  lemma MergeOfSatisfied(user: UserProfile, u: ProfileUpdate)
    requires Satisfies(user, u)
    ensures Merge(user, u) == user
  {
  }

  /** An empty update changes nothing, and applying an update twice is
      applying it once. */
  lemma MergeIdentityAndIdempotent(user: UserProfile, u: ProfileUpdate)
    ensures Merge(user, NoUpdate) == user
    ensures Merge(Merge(user, u), u) == Merge(user, u)
  {
  }

  /** The update of `setOnboardingStep`. */
  function StepUpdate(step: int): ProfileUpdate {
    NoUpdate.(onboardingStep := Some(step))
  }

  /** The update of `completeOnboarding`. */
  const CompleteUpdate := NoUpdate.(onboardingCompleted := Some(true))

  /** Setting the step touches only the step; completing onboarding touches
      only the completion flag. */
  lemma OnboardingUpdatesAreNarrow(user: UserProfile, step: int)
    ensures Merge(user, StepUpdate(step)) == user.(onboardingStep := step)
    ensures Merge(user, CompleteUpdate) == user.(onboardingCompleted := true)
  {
  }

  /** The three-month target `setBaselinePitch` stores: 12% lower, by at most
      25 Hz, rounded. */
  function TargetPitch(pitch: real): (t: int)
    ensures pitch - 25.0 - 0.5 < t as real
    ensures pitch >= 0.0 ==> t <= Round(pitch)
  {
    var t := Round(pitch - Min(pitch * 0.12, 25.0));
    if pitch >= 0.0 then
      RoundMonotone(pitch - Min(pitch * 0.12, 25.0), pitch);
      t
    else t
  }

  /** The stored target is the three-month projection shown during onboarding. */
  lemma TargetIsThreeMonthProjection(pitch: real)
    ensures TargetPitch(pitch) == PitchDetector.CalculateProjections(pitch).threeMonth
  {
  }

  /** The update of `setBaselinePitch`. */
  function BaselineUpdate(pitch: real): ProfileUpdate {
    NoUpdate.(baselinePitch := Some(pitch), targetPitch := Some(TargetPitch(pitch) as real))
  }

  /** A profile freshly created with the given id and creation time. */
  function FreshProfile(id: string, createdAt: string): (p: UserProfile)
    ensures p.(id := DefaultUserProfile.id, createdAt := DefaultUserProfile.createdAt) == DefaultUserProfile
    ensures !p.onboardingCompleted && p.onboardingStep == 0
    ensures p.baselinePitch == None && p.targetPitch == None
  {
    DefaultUserProfile.(id := id, createdAt := createdAt)
  }

  /** The user provider's state. */
  class UserState {
    var user: UserProfile

    constructor ()
      ensures user == DefaultUserProfile
    {
      user := DefaultUserProfile;
    }

    /** `hasCompletedOnboarding`. */
    function HasCompletedOnboarding(): bool
      reads this
    {
      user.onboardingCompleted
    }

    /** `loadUser`: the stored profile, or a fresh one that is then stored. */
    method LoadUser(freshId: string, now: string, store: AsyncStorage.Store)
      modifies this, store
      ensures old(store.GetUserProfile()).Some? ==> user == old(store.GetUserProfile()).value && store.data == old(store.data)
      ensures old(store.GetUserProfile()).None? ==>
        user == FreshProfile(freshId, now)
        && store.data == old(store.data)[AsyncStorage.UserProfileKey := AsyncStorage.ProfileValue(user)]
    {
      var savedProfile := store.GetUserProfile();
      if savedProfile.Some? {
        user := savedProfile.value;
      } else {
        var newProfile := FreshProfile(freshId, now);
        user := newProfile;
        store.SaveUserProfile(newProfile);
      }
    }

    /** `updateUser`: merge, adopt and store. */
    method UpdateUser(updates: ProfileUpdate, store: AsyncStorage.Store)
      modifies this, store
      ensures user == Merge(old(user), updates)
      ensures store.data == old(store.data)[AsyncStorage.UserProfileKey := AsyncStorage.ProfileValue(user)]
    {
      var updatedUser := Merge(user, updates);
      user := updatedUser;
      store.SaveUserProfile(updatedUser);
    }

    method SetOnboardingStep(step: int, store: AsyncStorage.Store)
      modifies this, store
      ensures user == old(user).(onboardingStep := step)
      ensures store.data == old(store.data)[AsyncStorage.UserProfileKey := AsyncStorage.ProfileValue(user)]
    {
      UpdateUser(StepUpdate(step), store);
    }

    method CompleteOnboarding(store: AsyncStorage.Store)
      modifies this, store
      ensures user == old(user).(onboardingCompleted := true)
      ensures HasCompletedOnboarding()
      ensures store.data == old(store.data)[AsyncStorage.UserProfileKey := AsyncStorage.ProfileValue(user)]
    {
      UpdateUser(CompleteUpdate, store);
    }

    /** `resetUser`: clear the stored profile, then start and store a fresh one. */
    method ResetUser(freshId: string, now: string, store: AsyncStorage.Store)
      modifies this, store
      ensures user == FreshProfile(freshId, now)
      ensures !HasCompletedOnboarding()
      ensures store.data == (old(store.data) - {AsyncStorage.UserProfileKey})[AsyncStorage.UserProfileKey := AsyncStorage.ProfileValue(user)]
    {
      store.ClearUserProfile();
      var newProfile := FreshProfile(freshId, now);
      user := newProfile;
      store.SaveUserProfile(newProfile);
    }

    method SetFirstName(firstName: string, store: AsyncStorage.Store)
      modifies this, store
      ensures user == old(user).(firstName := firstName)
      ensures store.data == old(store.data)[AsyncStorage.UserProfileKey := AsyncStorage.ProfileValue(user)]
    {
      UpdateUser(NoUpdate.(firstName := Some(firstName)), store);
    }

    method SetAgeRange(ageRange: AgeRange, store: AsyncStorage.Store)
      modifies this, store
      ensures user == old(user).(ageRange := Some(ageRange))
      ensures store.data == old(store.data)[AsyncStorage.UserProfileKey := AsyncStorage.ProfileValue(user)]
    {
      UpdateUser(NoUpdate.(ageRange := Some(ageRange)), store);
    }

    method SetPrimaryGoal(primaryGoal: PrimaryGoal, store: AsyncStorage.Store)
      modifies this, store
      ensures user == old(user).(primaryGoal := Some(primaryGoal))
      ensures store.data == old(store.data)[AsyncStorage.UserProfileKey := AsyncStorage.ProfileValue(user)]
    {
      UpdateUser(NoUpdate.(primaryGoal := Some(primaryGoal)), store);
    }

    method SetVoicePerception(voicePerception: VoicePerception, store: AsyncStorage.Store)
      modifies this, store
      ensures user == old(user).(voicePerception := Some(voicePerception))
      ensures store.data == old(store.data)[AsyncStorage.UserProfileKey := AsyncStorage.ProfileValue(user)]
    {
      UpdateUser(NoUpdate.(voicePerception := Some(voicePerception)), store);
    }

    method SetExperienceLevel(experienceLevel: ExperienceLevel, store: AsyncStorage.Store)
      modifies this, store
      ensures user == old(user).(experienceLevel := Some(experienceLevel))
      ensures store.data == old(store.data)[AsyncStorage.UserProfileKey := AsyncStorage.ProfileValue(user)]
    {
      UpdateUser(NoUpdate.(experienceLevel := Some(experienceLevel)), store);
    }

    method SetDailyCommitment(dailyCommitment: DailyCommitment, store: AsyncStorage.Store)
      modifies this, store
      ensures user == old(user).(dailyCommitment := Some(dailyCommitment))
      ensures store.data == old(store.data)[AsyncStorage.UserProfileKey := AsyncStorage.ProfileValue(user)]
    {
      UpdateUser(NoUpdate.(dailyCommitment := Some(dailyCommitment)), store);
    }

    /** `setBaselinePitch`: the baseline and its three-month target. */
    method SetBaselinePitch(pitch: real, store: AsyncStorage.Store)
      modifies this, store
      ensures user == old(user).(baselinePitch := Some(pitch), targetPitch := Some(TargetPitch(pitch) as real))
      ensures store.data == old(store.data)[AsyncStorage.UserProfileKey := AsyncStorage.ProfileValue(user)]
    {
      UpdateUser(BaselineUpdate(pitch), store);
    }
  }
}
