/** The display-name part of the user settings panel: validation with its
    three messages, the change handler and the guarded submit. The update
    request is a collaborator; its outcome is a parameter. */
module UserSettings {
  import opened Common

  const TooShort := "Display name must be at least 3 characters long"
  const TooLong := "Display name must be at most 30 characters long"
  const BadCharacters := "Display name can only contain letters, numbers, underscores, and hyphens"
  const UpdateSucceeded := "Success: Display name updated"
  const UpdateFailed := "Failed to update display name. Please try again."

  const MinLength: nat := 3
  const MaxLength: nat := 30

  /** A character of the class `[a-zA-Z0-9_-]`. */
  predicate NameChar(c: char)
  {
    ('a' <= c <= 'z') || ('A' <= c <= 'Z') || ('0' <= c <= '9') || c == '_' || c == '-'
  }

  /** `/^[a-zA-Z0-9_-]+$/.test(name)`. */
  predicate MatchesNamePattern(name: string)
  {
    |name| >= 1 && forall k :: 0 <= k < |name| ==> NameChar(name[k])
  }

  /** The error `validateDisplayName` sets: None when the name passes. The
      checks run in the order short, long, characters. */
  function Validate(name: string): (r: Option<string>)
    ensures r.None? <==> MinLength <= |name| <= MaxLength && MatchesNamePattern(name)
    ensures |name| < MinLength ==> r == Some(TooShort)
    ensures MinLength <= |name| <= MaxLength ==> (r.None? || r == Some(BadCharacters))
    ensures |name| > MaxLength ==> r == Some(TooLong)
    ensures r.Some? && MinLength <= |name| <= MaxLength ==> exists k :: 0 <= k < |name| && !NameChar(name[k])
  {
    if |name| < MinLength then Some(TooShort)
    else if |name| > MaxLength then Some(TooLong)
    else if !MatchesNamePattern(name) then Some(BadCharacters)
    else None
  }

  /** A name that passes has no whitespace, so the trim at submit leaves it unchanged. */
  lemma ValidNameIsTrimmed(name: string)
    requires Validate(name).None?
    ensures JsTrim(name) == name
    ensures JsTrim(name) != ""
  {
    assert forall k :: 0 <= k < |name| ==> NameChar(name[k]);
    JsTrimNoWhitespace(name);
  }

  /** The guard of `handleDisplayNameSubmit`, both of its lines. */
  predicate SubmitAllowed(displayName: string, isLoading: bool, userId: Option<string>)
  {
    JsTrim(displayName) != "" && !isLoading && userId.Some? && Validate(displayName).None?
  }

  /** Whatever passes the guard is sent exactly as typed. */
  lemma SubmittedAsTyped(displayName: string, isLoading: bool, userId: Option<string>)
    requires SubmitAllowed(displayName, isLoading, userId)
    ensures JsTrim(displayName) == displayName
    ensures MinLength <= |displayName| <= MaxLength
  {
    ValidNameIsTrimmed(displayName);
  }

  class SettingsPanel {
    var displayName: string
    var isLoading: bool
    var nameError: Option<string>
    var nameSuccess: Option<string>

    constructor (username: string)
      ensures displayName == username && !isLoading && nameError.None? && nameSuccess.None?
    {
      displayName := username;
      isLoading := false;
      nameError := None;
      nameSuccess := None;
    }

    method ValidateDisplayName(name: string) returns (ok: bool)
      modifies this
      ensures ok <==> Validate(name).None?
      ensures nameError == Validate(name)
      ensures displayName == old(displayName) && isLoading == old(isLoading) && nameSuccess == old(nameSuccess)
    {
      if |name| < MinLength {
        nameError := Some(TooShort);
        return false;
      }
      if |name| > MaxLength {
        nameError := Some(TooLong);
        return false;
      }
      if !MatchesNamePattern(name) {
        nameError := Some(BadCharacters);
        return false;
      }
      nameError := None;
      return true;
    }

    /** Clearing the input clears the error without validating. */
    method HandleDisplayNameChange(newName: string)
      modifies this
      ensures displayName == newName
      ensures nameError == if newName == "" then None else Validate(newName)
      ensures isLoading == old(isLoading) && nameSuccess == old(nameSuccess)
    {
      displayName := newName;
      if newName != "" {
        var _ := ValidateDisplayName(newName);
      } else {
        nameError := None;
      }
    }

    /** Submits the name for `userId` and returns the request made, if any;
        `updateSucceeded` is how the awaited update ends. */
    method HandleDisplayNameSubmit(userId: Option<string>, updateSucceeded: bool) returns (request: Option<(string, string)>)
      modifies this
      ensures request.Some? <==> SubmitAllowed(old(displayName), old(isLoading), userId)
      ensures request.Some? ==> request.value == (userId.value, JsTrim(old(displayName)))
      ensures request.Some? ==>
        !isLoading
        && (updateSucceeded ==> nameSuccess == Some(UpdateSucceeded) && nameError.None?)
        && (!updateSucceeded ==> nameSuccess.None? && nameError == Some(UpdateFailed))
      ensures request.None? && (JsTrim(old(displayName)) == "" || old(isLoading) || userId.None?) ==>
        nameError == old(nameError) && nameSuccess == old(nameSuccess) && isLoading == old(isLoading)
      ensures request.None? && !(JsTrim(old(displayName)) == "" || old(isLoading) || userId.None?) ==>
        nameError == Validate(old(displayName)) && nameSuccess == old(nameSuccess) && isLoading == old(isLoading)
      ensures displayName == old(displayName)
    {
      var trimmed := JsTrim(displayName);
      if trimmed == "" || isLoading || userId.None? {
        return None;
      }
      var ok := ValidateDisplayName(displayName);
      if !ok {
        return None;
      }
      UpdateUsername(updateSucceeded);
      request := Some((userId.value, trimmed));
    }

    /** The awaited update, between `setIsLoading(true)` and the `finally`. */
    method UpdateUsername(updateSucceeded: bool)
      modifies this
      ensures !isLoading && displayName == old(displayName)
      ensures updateSucceeded ==> nameSuccess == Some(UpdateSucceeded) && nameError.None?
      ensures !updateSucceeded ==> nameSuccess.None? && nameError == Some(UpdateFailed)
    {
      isLoading := true;
      nameSuccess := None;
      if updateSucceeded {
        nameSuccess := Some(UpdateSucceeded);
        nameError := None;
      } else {
        nameError := Some(UpdateFailed);
      }
      isLoading := false;
    }
  }
}
