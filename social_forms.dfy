/**
 * The custom validation hooks of social_network/forms.py. Cleaned data is
 * the dictionary the form has built from the fields that passed their own
 * field validation; a key is absent when its field failed or was not sent.
 */
module SocialForms {
  import opened Wrappers

  type CleanedData = map<string, string>

  /** What `clean` returns, or the ValidationError it raises. */
  datatype Cleaned<T> = Accepted(data: T) | Rejected(message: string)

  const TitleTooShort: string := "Title must be at least 5 characters long."
  const CommentTooShort: string := "Comment must be at least 3 characters long."
  const BioTooLong: string := "Bio must be 500 characters or less."
  const EmailInUse: string := "Email is already in use."

  const MinTitleLength: nat := 5
  const MinCommentLength: nat := 3
  const MaxBioLength: nat := 500

  /** `PostForm.clean`: a title that is present must have at least 5 characters. */
  function CleanPost(cleaned: CleanedData): (r: Cleaned<CleanedData>)
    ensures r.Rejected? <==> "title" in cleaned && |cleaned["title"]| < MinTitleLength
    ensures r.Accepted? ==> r.data == cleaned
    ensures r.Rejected? ==> r.message == TitleTooShort
  {
    if "title" in cleaned && |cleaned["title"]| < MinTitleLength then Rejected(TitleTooShort)
    else Accepted(cleaned)
  }

  /** `CommentForm.clean`: content that is present must have at least 3 characters. */
  function CleanComment(cleaned: CleanedData): (r: Cleaned<CleanedData>)
    ensures r.Rejected? <==> "content" in cleaned && |cleaned["content"]| < MinCommentLength
    ensures r.Accepted? ==> r.data == cleaned
    ensures r.Rejected? ==> r.message == CommentTooShort
  {
    if "content" in cleaned && |cleaned["content"]| < MinCommentLength then Rejected(CommentTooShort)
    else Accepted(cleaned)
  }

  /**
   * `ProfileUpdateForm.clean`: a non-empty bio longer than 500 characters is
   * refused; an absent or empty bio always passes.
   */
  function CleanProfileUpdate(cleaned: CleanedData): (r: Cleaned<CleanedData>)
    ensures r.Rejected? <==> "bio" in cleaned && |cleaned["bio"]| > MaxBioLength
    ensures r.Accepted? ==> r.data == cleaned
    ensures r.Rejected? ==> r.message == BioTooLong
  {
    var bio := if "bio" in cleaned then Some(cleaned["bio"]) else None;
    if bio.Some? && bio.value != "" && |bio.value| > MaxBioLength then Rejected(BioTooLong)
    else Accepted(cleaned)
  }

  /**
   * `UserRegisterForm.clean_email`: an address some user already has is
   * refused, any other is returned as it is. A missing address matches no
   * user (the column is never null) and comes back as None.
   */
  function CleanEmail(email: Option<string>, existingEmails: set<string>): (r: Cleaned<Option<string>>)
    ensures r.Rejected? <==> email.Some? && email.value in existingEmails
    ensures r.Accepted? ==> r.data == email
    ensures r.Rejected? ==> r.message == EmailInUse
  {
    if email.Some? && email.value in existingEmails then Rejected(EmailInUse) else Accepted(email)
  }

  /** Data a clean hook accepted is accepted again, unchanged: each hook is idempotent. */
  lemma CleanIdempotent(cleaned: CleanedData)
    ensures CleanPost(cleaned).Accepted? ==> CleanPost(CleanPost(cleaned).data) == CleanPost(cleaned)
    ensures CleanComment(cleaned).Accepted? ==> CleanComment(CleanComment(cleaned).data) == CleanComment(cleaned)
    ensures CleanProfileUpdate(cleaned).Accepted? ==>
      CleanProfileUpdate(CleanProfileUpdate(cleaned).data) == CleanProfileUpdate(cleaned)
  {
  }

  /** The bio limit is inclusive: exactly 500 characters pass, 501 do not. */
  lemma BioBoundary(bio: string)
    ensures |bio| == MaxBioLength ==> CleanProfileUpdate(map["bio" := bio]).Accepted?
    ensures |bio| == MaxBioLength + 1 ==> CleanProfileUpdate(map["bio" := bio]).Rejected?
  {
  }
}
