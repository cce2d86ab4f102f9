/** courses/validators.py: the video URL check. A value passes when the text
    "youtube.com" occurs in it anywhere; otherwise a validation error with a
    fixed message is raised. The check is a plain, case-sensitive substring
    test, not a parse of the URL's host. */
module Validators {
  import opened Strings

  const YouTubeMarker: string := "youtube.com"
  const RejectionMessage: string := "This content cannot be added!"

  datatype ValidationError = ValidationError(message: string)

  /** `validate_url` returns nothing on success and raises on failure. */
  datatype Outcome = Pass | Fail(error: ValidationError)

  function ValidateUrl(value: string): (r: Outcome)
    ensures r.Pass? <==> exists i: nat :: OccursAt(value, "youtube.com", i)
    ensures r.Fail? ==> r.error == ValidationError("This content cannot be added!")
  {
    ContainsIff(value, YouTubeMarker);
    if Contains(value, YouTubeMarker) then Pass
    else Fail(ValidationError(RejectionMessage))
  }

  /** An accepted value stays accepted whatever is put around it. */
  lemma AcceptedUnderExtension(prefix: string, value: string, suffix: string)
    requires ValidateUrl(value).Pass?
    ensures ValidateUrl(prefix + value + suffix).Pass?
  {
    ContainsIff(value, YouTubeMarker);
    ContainsExtended(prefix, value, suffix, YouTubeMarker);
    ContainsIff(prefix + value + suffix, YouTubeMarker);
  }

  /** Any value shorter than "youtube.com" (11 characters) is rejected. */
  lemma ShortValueRejected(value: string)
    requires |value| < 11
    ensures ValidateUrl(value) == Fail(ValidationError("This content cannot be added!"))
  {
  }

  /** Not a domain check: the marker in a query string is enough. */
  lemma MarkerInQueryAccepted()
    ensures ValidateUrl("x.com/?youtube.com").Pass?
  {
  }

  /** Case-sensitive: the upper-case host is rejected. */
  lemma UpperCaseRejected()
    ensures ValidateUrl("YOUTUBE.COM").Fail?
  {
    var v := "YOUTUBE.COM";
    forall i: nat
      ensures !OccursAt(v, YouTubeMarker, i)
    {
      if i == 0 {
        assert v[0] != YouTubeMarker[0];
      }
    }
  }
}
