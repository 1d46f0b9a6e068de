/**
 * The stored documents of the shop, used as plain records: a book of the
 * catalogue, a user account and an activation token. Document ids are
 * natural numbers and timestamps are integers counting microseconds, the
 * resolution of the clock the handlers read; the document store keeps
 * whole milliseconds only (`StoredTime`).
 */
module Documents {

  type ObjectId = nat

  /** Microseconds since the epoch. */
  type Timestamp = int

  const MICROSECONDS_PER_MILLISECOND := 1000

  /**
   * What the document store keeps of a timestamp: its dates hold whole
   * milliseconds, so a stored time read back has lost its microseconds.
   */
  function StoredTime(t: Timestamp): (r: Timestamp)
    ensures r <= t < r + MICROSECONDS_PER_MILLISECOND
    ensures r % MICROSECONDS_PER_MILLISECOND == 0
  {
    t - t % MICROSECONDS_PER_MILLISECOND
  }

  /** A catalogue entry. The source spells the language field `lanugage`. */
  datatype Book = Book(
    title: string,
    isbn: string,
    price: int,
    description: string,
    language: string,
    authorId: ObjectId,
    genre: seq<string>,
    imageUrl: string)

  /** A user account; a new account is inactive until it is activated. */
  datatype User = User(
    id: ObjectId,
    email: string,
    hashedPassword: string,
    isActive: bool,
    createdAt: Timestamp)

  /** A one-time activation token bound to the user with id `userId`. */
  datatype ActivationToken = ActivationToken(
    activationToken: string,
    userId: ObjectId,
    expiresAt: Timestamp)
}
