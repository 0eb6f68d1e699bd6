/** `FlagTransactionRequest`: the body of the flag endpoint, whose one field
    must carry a comment. */
module FlagRequest {
  import opened Wrappers
  import opened JavaText
  import opened Constraints

  datatype FlagTransactionRequest = FlagTransactionRequest(comment: Option<string>)

  /** The violations of the @NotBlank constraint on `comment`. */
  function Validate(req: FlagTransactionRequest): (r: set<Violation>)
    ensures r <= {Violation(Comment, CommentRequired)}
  {
    if NotBlank(req.comment) then {} else {Violation(Comment, CommentRequired)}
  }

  /** A comment is accepted exactly when it is present and holds a character
      above U+0020: null, empty and whitespace-only comments are rejected. */
  lemma CommentRequiredIffBlank(req: FlagTransactionRequest)
    ensures Validate(req) == {} <==> req.comment.Some? && exists i :: 0 <= i < |req.comment.value| && !IsTrimmable(req.comment.value[i])
    ensures Validate(req) == {} <==> req.comment.Some? && Trim(req.comment.value) != []
  {
    NotBlankIffTrimmedNonEmpty(req.comment);
  }

  /** Null, empty and space-only comments are each rejected. */
  lemma MissingCommentsRejected(s: string)
    requires s == " "
    ensures Validate(FlagTransactionRequest(None)) == {Violation(Comment, CommentRequired)}
    ensures Validate(FlagTransactionRequest(Some([]))) == {Violation(Comment, CommentRequired)}
    ensures Validate(FlagTransactionRequest(Some(s))) == {Violation(Comment, CommentRequired)}
  {
  }
}
