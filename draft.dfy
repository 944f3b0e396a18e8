/** The submit-time checks both report screens run on a draft, in their fixed
    order: category, then description, then photos. Only the first failure is
    reported. */
module Draft {
  import opened Common
  import opened Strings

  /** The categories the category picker lists. Each report screen declares its
      own copy of this list; the two copies are identical. */
  const Categories: seq<string> :=
    ["Wallet", "Phone", "Laptop", "Bag/Backpack", "Watch", "Keys", "Glasses", "Documents", "Jewelry", "Other"]

  /** The shortest trimmed description a report may carry. */
  const MinDescriptionLength: nat := 10

  /** The widest description the text input accepts (`maxLength`). */
  const MaxDescriptionLength: nat := 500

  /** The validation alerts, one per check. */
  datatype ValidationError = MissingCategory | DescriptionTooShort | NoPhotos

  /** `!selectedCategory`: no category, or the empty string. */
  predicate NoCategory(category: Option<string>) {
    category.None? || category.value == ""
  }

  /** The first check `handleSubmit` fails, or `None` when it passes all three. */
  function Validate(category: Option<string>, description: string, images: seq<string>): Option<ValidationError> {
    if NoCategory(category) then Some(MissingCategory)
    else if |Trim(description)| < MinDescriptionLength then Some(DescriptionTooShort)
    else if |images| == 0 then Some(NoPhotos)
    else None
  }

  /** A reported error is the first check that fails: every check before it
      passed and its own check failed. A draft passes exactly when it has a
      category, a trimmed description of at least ten characters and a photo. */
  lemma ValidateReportsFirstFailure(category: Option<string>, description: string, images: seq<string>)
    ensures Validate(category, description, images) == Some(MissingCategory) <==> NoCategory(category)
    ensures Validate(category, description, images) == Some(DescriptionTooShort) <==>
      !NoCategory(category) && |Trim(description)| < MinDescriptionLength
    ensures Validate(category, description, images) == Some(NoPhotos) <==>
      !NoCategory(category) && |Trim(description)| >= MinDescriptionLength && images == []
    ensures Validate(category, description, images).None? <==>
      !NoCategory(category) && |Trim(description)| >= MinDescriptionLength && images != []
  {
  }

  /** Surrounding whitespace in the description never changes the verdict, and a
      description of only whitespace is always too short. */
  lemma ValidateIgnoresDescriptionPadding(category: Option<string>, pre: string, description: string, post: string, images: seq<string>)
    requires AllWhitespace(pre) && AllWhitespace(post)
    ensures Validate(category, pre + description + post, images) == Validate(category, description, images)
    ensures AllWhitespace(description) && !NoCategory(category) ==>
      Validate(category, description, images) == Some(DescriptionTooShort)
  {
    TrimIgnoresPadding(pre, description, post);
    BlankIffAllWhitespace(description);
  }
}
