/**
 * Identifiers of the blog's tables and the values every workflow shares:
 * results with their error cases, the acting user and the sort order.
 */
module Ids {

  /** Row identifiers travel as strings through the GraphQL layer and the services. */
  type Id = string

  function DigitChar(d: nat): char
    requires d < 10
  {
    "0123456789"[d]
  }

  /**
   * The text of an auto-increment key: the decimal notation of the counter value
   * the table handed out for the row.
   */
  function Decimal(n: nat): (s: string)
    ensures |s| >= 1
    ensures n >= 10 ==> |s| >= 2
    decreases n
  {
    if n < 10 then [DigitChar(n)] else Decimal(n / 10) + [DigitChar(n % 10)]
  }

  /** Two counter values share a key only if they are equal: keys handed out later are fresh. */
  lemma {:induction false} DecimalInjective(a: nat, b: nat)
    requires Decimal(a) == Decimal(b)
    ensures a == b
    decreases a
  {
    if a < 10 && b < 10 {
      assert Decimal(a)[0] == DigitChar(a) && Decimal(b)[0] == DigitChar(b);
    } else if a < 10 || b < 10 {
      // one key has a single digit, the other at least two
      assert false;
    } else {
      var sa, sb := Decimal(a / 10), Decimal(b / 10);
      assert Decimal(a) == sa + [DigitChar(a % 10)];
      assert Decimal(b) == sb + [DigitChar(b % 10)];
      assert |sa| == |sb|;
      assert Decimal(a)[|sa|] == DigitChar(a % 10) && Decimal(b)[|sb|] == DigitChar(b % 10);
      assert sa == Decimal(a)[..|sa|] && sb == Decimal(b)[..|sb|];
      DecimalInjective(a / 10, b / 10);
    }
  }

  /** No key handed out after counter value `n` equals the key of `n`. */
  lemma DecimalLaterDiffers(n: nat)
    ensures forall k: nat :: k > n ==> Decimal(k) != Decimal(n)
  {
    forall k: nat | k > n
      ensures Decimal(k) != Decimal(n)
    {
      if Decimal(k) == Decimal(n) {
        DecimalInjective(k, n);
      }
    }
  }
}

module Common {
  import opened Ids

  datatype Option<+T> = None | Some(value: T)

  /** The errors the services throw and the resolvers return, one per distinct cause. */
  datatype Error =
    | PostNotFound       // no Post row with the requested id
    | CategoryNotFound   // the category lookup found no row
    | CommentNotFound    // no Comment row with the requested id
    | NoComments         // the post exists but has no comment
    | NotCommentOwner    // the acting user id differs from the comment's UserId
    | LoginRequired      // a comment resolver was called without a user
    | MustBeAdmin        // a post resolver was called without an ADMIN user
    | TagError           // `null.slice(1)` in tag association, rethrown
    | DatabaseError      // a rejected ORM call in tag association

  datatype Result<+T> = Ok(value: T) | Err(error: Error)

  datatype Grant = Admin | Normal

  /** The authenticated user the transport layer puts into the resolver context. */
  datatype Actor = Actor(id: Id, grant: Grant)

  /** `"ASC"` or `"DESC"` on the creation time. */
  datatype Order = Asc | Desc

  predicate IsAdmin(user: Option<Actor>)
  {
    user.Some? && user.value.grant == Admin
  }
}
