/** The FluentValidation rules the `[Validate]` request bodies must pass
    before a write handler runs. `NotEmpty()` on a string refuses an empty or
    all-white-space value; `Length(min, max)` bounds the number of UTF-16 code
    units (the .NET `Length`), both ends included. The unauthenticated revision declares the same rules. */
module Validators {
  import opened Text
  import opened Data

  predicate NotEmpty(s: string) {
    !AllWhiteSpace(s)
  }

  /** `Length(min, max)`, which measures the .NET `Length` (UTF-16 code units). */
  predicate LengthBetween(s: string, min: nat, max: nat) {
    min <= Utf16Length(s) <= max
  }

  /** A non-empty string of `min..max` UTF-16 code units (the .NET `Length`). */
  predicate TextField(s: string, min: nat, max: nat) {
    NotEmpty(s) && LengthBetween(s, min, max)
  }

  predicate ValidCreateMeniu(dto: CreateMeniuDto) {
    TextField(dto.name, 2, 100) && TextField(dto.description, 10, 300)
  }

  predicate ValidUpdateMeniu(dto: UpdateMeniuDto) {
    TextField(dto.description, 10, 300)
  }

  predicate ValidCreateDish(dto: CreateDishDto) {
    && TextField(dto.name, 2, 100)
    && TextField(dto.description, 5, 300)
    && dto.price > 0.0
    && TextField(dto.ingredients, 5, 300)
  }

  predicate ValidUpdateDish(dto: UpdateDishDto) {
    && TextField(dto.description, 10, 300)
    && dto.price > 0.0
    && TextField(dto.ingredients, 5, 300)
  }

  /** The comment rules, which create and update share. */
  predicate ValidCommentFields(content: string, rating: int) {
    TextField(content, 5, 500) && 1 <= rating <= 5
  }

  predicate ValidCreateComment(dto: CreateCommentDto) {
    ValidCommentFields(dto.content, dto.rating)
  }

  predicate ValidUpdateComment(dto: UpdateCommentDto) {
    ValidCommentFields(dto.content, dto.rating)
  }

  /** Every dish update the validator admits would also pass the create
      rules, given an admissible name: the update rules are the stricter. */
  lemma DishUpdateRulesAreStricter(dto: UpdateDishDto, name: string)
    requires ValidUpdateDish(dto) && TextField(name, 2, 100)
    ensures ValidCreateDish(CreateDishDto(name, dto.description, dto.price, dto.ingredients, dto.isAvailable))
  {
  }

  /** ... and strictly so: a five-letter description can create a dish but
      not update one. */
  lemma ShortDescriptionOnlyOnCreate()
    ensures ValidCreateDish(CreateDishDto("Soup", "Tasty", 1.0, "Water", true))
    ensures !ValidUpdateDish(UpdateDishDto("Tasty", 1.0, "Water", true))
  {
    assert !IsWhiteSpace("Soup"[0]) && !IsWhiteSpace("Tasty"[0]) && !IsWhiteSpace("Water"[0]);
  }

  /** `NotEmpty` is not implied by the length rule: five spaces have the
      length of a comment but are refused. */
  lemma BlankCommentRefused()
    ensures LengthBetween("     ", 5, 500) && !ValidCommentFields("     ", 3)
  {
    assert forall i :: 0 <= i < 5 ==> "     "[i] == ' ';
  }

  /** Length counts UTF-16 code units: three emoji (six code units) are a
      long enough comment although they are only three characters. */
  lemma EmojiCommentAccepted()
    ensures |"\U{1F600}\U{1F600}\U{1F600}"| == 3
    ensures Utf16Length("\U{1F600}\U{1F600}\U{1F600}") == 6
    ensures ValidCommentFields("\U{1F600}\U{1F600}\U{1F600}", 4)
  {
    var s := "\U{1F600}\U{1F600}\U{1F600}";
    assert s[1..] == "\U{1F600}\U{1F600}" && s[1..][1..] == "\U{1F600}";
    assert !IsWhiteSpace(s[0]);
  }
}
