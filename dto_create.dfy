/** The second declaration of the create request, whose amount rule is `required,min=1`. */
module CreateDto {
  import opened Tags
  import TransactionDto

  datatype TransactionCreateDto = TransactionCreateDto(userId: int, amount: int)

  const UserIdTags: seq<NumTag> := [Required, Min(1)]
  const AmountTags: seq<NumTag> := [Required, Min(1)]

  predicate CreateValid(d: TransactionCreateDto) {
    NumValid(UserIdTags, PlainInt(d.userId)) && NumValid(AmountTags, PlainInt(d.amount))
  }

  /** Valid exactly when the user id and the amount are both at least 1. */
  lemma CreateValidIff(d: TransactionCreateDto)
    ensures CreateValid(d) <==> d.userId >= 1 && d.amount >= 1
  {
    RequiredMinIff(1, d.userId);
    RequiredMinIff(1, d.amount);
  }

  /** A user id of 0 or below, an amount of 0 or a negative amount is rejected. */
  lemma CreateRejects(d: TransactionCreateDto)
    requires d.userId <= 0 || d.amount <= 0
    ensures !CreateValid(d)
  {
    CreateValidIff(d);
  }

  /**
   * The two declarations of the create request accept the same requests:
   * `min=0` after `required` on an int admits nothing that `min=1` does not.
   */
  lemma DeclarationsAgree(userId: int, amount: int)
    ensures CreateValid(TransactionCreateDto(userId, amount)) <==>
            TransactionDto.CreateValid(TransactionDto.TransactionCreateDto(userId, amount))
  {
    CreateValidIff(TransactionCreateDto(userId, amount));
    TransactionDto.CreateValidIff(TransactionDto.TransactionCreateDto(userId, amount));
  }
}
