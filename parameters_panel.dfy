/** The settings panel: it edits a local copy of the history length, the
    statefulness switch and the user profile, and on "Apply" validates the
    length and reports the new settings to the shell through its callbacks. */
module ParametersPanel {
  import opened Js
  import opened Types
  import Constants

  /** What applying the settings does, in order: a call of one of the
      panel's callbacks, or the alert shown for a rejected length. */
  datatype Effect =
    | UpdateHistoryLength(newLength: int)
    | SetStatefulness(enabled: bool)
    | UpdateUserProfile(profile: UserProfile)
    | ClosePanel
    | Alert(message: string)

  const RangeAlert := "Please enter a number between 0 and 10."

  /** The avatars the panel offers. */
  const AvatarOptions: seq<string> := [
    "\U{1F916}", "\U{1F464}", "\U{1F469}\U{200D}\U{1F4BB}", "\U{1F468}\U{200D}\U{1F4BB}",
    "\U{1F680}", "\U{1F31F}", "\U{1F6E1}\U{FE0F}", "\U{1F47E}"
  ]

  /** The history length the text field stands for, when it is accepted:
      its `parseInt` value, if that is a number from 0 to 10. */
  function AcceptedLength(lengthInput: string): Option<int> {
    var newLength := ParseInt(lengthInput);
    if newLength.Some? && newLength.value >= 0 && newLength.value <= 10 then newLength else None
  }

  /** The user name sent to the shell: the trimmed local name, or 'Guest' if that is empty. */
  function NormalisedUsername(username: string): string {
    Or(Trim(username), "Guest")
  }

  /** The effects of `handleApplyParameters` on the local settings, given
      the statefulness the shell currently has. */
  function ApplyEffects(lengthInput: string, checked: bool, enabled: bool, username: string, avatar: string)
    : seq<Effect>
  {
    match AcceptedLength(lengthInput)
    case None => [Alert(RangeAlert)]
    case Some(n) => AppliedEffects(n, checked, enabled, username, avatar)
  }

  /** The callbacks called for an accepted length `n`. */
  function AppliedEffects(n: int, checked: bool, enabled: bool, username: string, avatar: string): seq<Effect> {
    [UpdateHistoryLength(n)]
      + (if checked != enabled then [SetStatefulness(checked)] else [])
      + [UpdateUserProfile(UserProfile(NormalisedUsername(username), avatar))]
      + [ClosePanel]
  }

  /** A length is accepted exactly when it parses to a number from 0 to 10,
      and then that very number is what is accepted. */
  lemma AcceptedLengthRange(lengthInput: string)
    ensures AcceptedLength(lengthInput).Some? <==>
      ParseInt(lengthInput).Some? && 0 <= ParseInt(lengthInput).value <= 10
    ensures AcceptedLength(lengthInput).Some? ==> AcceptedLength(lengthInput) == ParseInt(lengthInput)
  {
  }

  /** The text the panel shows for a length the shell holds is accepted back
      as that same length whenever it lies from 0 to 10. */
  lemma ShownLengthAccepted(currentLength: int)
    ensures AcceptedLength(IntToString(currentLength)) == (if 0 <= currentLength <= 10 then Some(currentLength) else None)
  {
    ParseIntOfIntToString(currentLength);
  }

  /** The shell's initial history bound lies within the range the panel accepts. */
  lemma InitialLengthAccepted()
    ensures AcceptedLength(IntToString(Constants.InitialMaxHistoryLength)) == Some(Constants.InitialMaxHistoryLength)
  {
    ShownLengthAccepted(Constants.InitialMaxHistoryLength);
  }

  /** A rejected length shows the alert and calls no callback, not even the one that closes the panel. */
  lemma RejectedInput(lengthInput: string, checked: bool, enabled: bool, username: string, avatar: string)
    requires AcceptedLength(lengthInput).None?
    ensures ApplyEffects(lengthInput, checked, enabled, username, avatar) == [Alert(RangeAlert)]
    ensures forall k :: 0 <= k < |ApplyEffects(lengthInput, checked, enabled, username, avatar)| ==>
      ApplyEffects(lengthInput, checked, enabled, username, avatar)[k].Alert?
  {
  }

  /** For an accepted length the callbacks run in the order length,
      statefulness (only when the switch differs from the shell's), profile,
      close, with no alert; the length is passed unchanged and the avatar as chosen. */
  lemma AppliedOrder(n: int, checked: bool, enabled: bool, username: string, avatar: string)
    ensures var e := AppliedEffects(n, checked, enabled, username, avatar);
      && |e| == (if checked != enabled then 4 else 3)
      && e[0] == UpdateHistoryLength(n)
      && e[|e| - 2] == UpdateUserProfile(UserProfile(NormalisedUsername(username), avatar))
      && e[|e| - 1] == ClosePanel
      && (forall k :: 0 <= k < |e| ==> !e[k].Alert?)
      && (forall b :: SetStatefulness(b) in e <==> checked != enabled && b == checked)
  {
  }

  /** The name sent is never empty; it is the trimmed local name when that
      has any non-white-space character, and normalising twice changes nothing. */
  lemma UsernameNormalised(username: string)
    ensures NormalisedUsername(username) != ""
    ensures Trim(username) != "" ==> NormalisedUsername(username) == Trim(username)
    ensures Trim(username) == "" ==> NormalisedUsername(username) == "Guest"
    ensures NormalisedUsername(NormalisedUsername(username)) == NormalisedUsername(username)
  {
    var t := Trim(username);
    if t != "" {
      TrimCharacterised(username);
      TrimOfTrimmed(t);
    } else {
      TrimOfTrimmed("Guest");
    }
  }

  /** The panel: the props the shell passes and the local copies it edits. */
  class ParametersPanel {
    var currentLength: int
    var isStatefulnessEnabled: bool
    var userProfile: UserProfile

    var localHistoryLengthInput: string
    var localStatefulnessChecked: bool
    var localUsername: string
    var localAvatar: string

    /** The local copies start from the props. */
    constructor(currentLength: int, isStatefulnessEnabled: bool, userProfile: UserProfile)
      ensures this.currentLength == currentLength && this.isStatefulnessEnabled == isStatefulnessEnabled
      ensures this.userProfile == userProfile
      ensures localHistoryLengthInput == IntToString(currentLength)
      ensures localStatefulnessChecked == isStatefulnessEnabled
      ensures localUsername == userProfile.username && localAvatar == userProfile.avatar
    {
      this.currentLength := currentLength;
      this.isStatefulnessEnabled := isStatefulnessEnabled;
      this.userProfile := userProfile;
      localHistoryLengthInput := IntToString(currentLength);
      localStatefulnessChecked := isStatefulnessEnabled;
      localUsername := userProfile.username;
      localAvatar := userProfile.avatar;
    }

    /** A re-render with new props: the length text and the switch are
        re-synced when their prop changed; the local profile is not. */
    method ReceiveProps(currentLength: int, isStatefulnessEnabled: bool, userProfile: UserProfile)
      modifies this
      ensures this.currentLength == currentLength && this.isStatefulnessEnabled == isStatefulnessEnabled
      ensures this.userProfile == userProfile
      ensures localHistoryLengthInput ==
        if currentLength != old(this.currentLength) then IntToString(currentLength) else old(localHistoryLengthInput)
      ensures localStatefulnessChecked ==
        if isStatefulnessEnabled != old(this.isStatefulnessEnabled) then isStatefulnessEnabled
        else old(localStatefulnessChecked)
      ensures localUsername == old(localUsername) && localAvatar == old(localAvatar)
    {
      var lengthChanged := currentLength != this.currentLength;
      var statefulnessChanged := isStatefulnessEnabled != this.isStatefulnessEnabled;
      this.currentLength := currentLength;
      this.isStatefulnessEnabled := isStatefulnessEnabled;
      this.userProfile := userProfile;
      if lengthChanged {
        localHistoryLengthInput := IntToString(currentLength);
      }
      if statefulnessChanged {
        localStatefulnessChecked := isStatefulnessEnabled;
      }
    }

    /** Typing in the length field. */
    method EditLength(text: string)
      modifies this
      ensures localHistoryLengthInput == text
      ensures currentLength == old(currentLength) && isStatefulnessEnabled == old(isStatefulnessEnabled)
      ensures userProfile == old(userProfile) && localStatefulnessChecked == old(localStatefulnessChecked)
      ensures localUsername == old(localUsername) && localAvatar == old(localAvatar)
    {
      localHistoryLengthInput := text;
    }

    /** Ticking or clearing the statefulness box. */
    method EditStatefulness(checked: bool)
      modifies this
      ensures localStatefulnessChecked == checked
      ensures currentLength == old(currentLength) && isStatefulnessEnabled == old(isStatefulnessEnabled)
      ensures userProfile == old(userProfile) && localHistoryLengthInput == old(localHistoryLengthInput)
      ensures localUsername == old(localUsername) && localAvatar == old(localAvatar)
    {
      localStatefulnessChecked := checked;
    }

    /** Typing in the user name field. */
    method EditUsername(text: string)
      modifies this
      ensures localUsername == text
      ensures currentLength == old(currentLength) && isStatefulnessEnabled == old(isStatefulnessEnabled)
      ensures userProfile == old(userProfile) && localHistoryLengthInput == old(localHistoryLengthInput)
      ensures localStatefulnessChecked == old(localStatefulnessChecked) && localAvatar == old(localAvatar)
    {
      localUsername := text;
    }

    /** Picking the `k`-th avatar button. */
    method ChooseAvatar(k: nat)
      requires k < |AvatarOptions|
      modifies this
      ensures localAvatar == AvatarOptions[k]
      ensures currentLength == old(currentLength) && isStatefulnessEnabled == old(isStatefulnessEnabled)
      ensures userProfile == old(userProfile) && localHistoryLengthInput == old(localHistoryLengthInput)
      ensures localStatefulnessChecked == old(localStatefulnessChecked) && localUsername == old(localUsername)
    {
      localAvatar := AvatarOptions[k];
    }

    /** `handleApplyParameters`: validates the length, alerting and returning
        early when it is out of range, then calls the callbacks in order. */
    method ApplyParameters() returns (effects: seq<Effect>)
      ensures effects == ApplyEffects(localHistoryLengthInput, localStatefulnessChecked, isStatefulnessEnabled,
        localUsername, localAvatar)
    {
      effects := [];
      var newLength := ParseInt(localHistoryLengthInput);
      if newLength.Some? && newLength.value >= 0 && newLength.value <= 10 {
        effects := effects + [UpdateHistoryLength(newLength.value)];
      } else {
        effects := effects + [Alert(RangeAlert)];
        return;
      }
      assert AcceptedLength(localHistoryLengthInput) == Some(newLength.value);
      AppendEmpty([], [UpdateHistoryLength(newLength.value)]);
      if localStatefulnessChecked != isStatefulnessEnabled {
        effects := effects + [SetStatefulness(localStatefulnessChecked)];
      } else {
        AppendNothing(effects, []);
      }
      effects := effects + [UpdateUserProfile(UserProfile(Or(Trim(localUsername), "Guest"), localAvatar))];
      effects := effects + [ClosePanel];
    }
  }
}
