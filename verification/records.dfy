/**
 * The records the components exchange with the backend: the signed-in user,
 * the session, the per-user profile row, a note row, and the notes-counter
 * update that both the editor and the dashboard send.
 */
module Records {
  import opened Common

  /** The identity provider's user: its id, its email and `user_metadata.full_name`. */
  datatype User = User(id: string, email: Option<string>, fullName: Option<string>)

  /** A session always carries its user and the bearer token for the payment endpoints. */
  datatype Session = Session(user: User, accessToken: string)

  datatype Tier = Free | Premium

  datatype SubscriptionStatus = Active | Cancelled | Expired | Pending

  /** A `profiles` row. Its primary key `id` is a number; `userId` refers to the user. */
  datatype Profile = Profile(
    id: int,
    userId: string,
    email: string,
    fullName: string,
    tier: Tier,
    notesCount: int,
    paypalSubscriptionId: Option<string>,
    paypalPlanId: Option<string>,
    status: Option<SubscriptionStatus>)

  /** A `notes` row (timestamps are not modelled). */
  datatype Note = Note(id: string, userId: string, title: string, content: string, tags: seq<string>)

  /** Free-tier limit on the number of notes. */
  const FreeNoteLimit: int := 10

  /**
   * The cached count the components read, `profile?.notes_count || 0`:
   * a missing profile counts as zero.
   */
  function CachedCount(profile: Option<Profile>): int
  {
    if profile.Some? then profile.value.notesCount else 0
  }

  /**
   * `update({ notes_count: value }).eq('id', key)` on `profiles`: the row is
   * selected by the numeric primary key, compared with `key`.
   */
  datatype CounterWrite = CounterWrite(key: string, value: int)

  function DigitChar(d: nat): char
    requires d < 10
  {
    "0123456789"[d]
  }

  /** The decimal text of a natural number, without sign or leading zeros. */
  function Digits(n: nat): (r: string)
    ensures r != []
    ensures forall i :: 0 <= i < |r| ==> '0' <= r[i] <= '9'
  {
    if n < 10 then [DigitChar(n)] else Digits(n / 10) + [DigitChar(n % 10)]
  }

  /** The decimal text of an integer, as the backend compares a numeric key with text. */
  function DecimalText(n: int): string
  {
    if n < 0 then "-" + Digits(-n) else Digits(n)
  }

  /** Whether a counter write selects the given profile row. */
  predicate Selects(w: CounterWrite, row: Profile)
  {
    w.key == DecimalText(row.id)
  }

  /**
   * A counter write keyed with a text that has a '-' after its first
   * character (every UUID does, at index 8) selects no profile row: a decimal
   * number has a '-' at most in front.
   */
  lemma CounterWriteMissesRow(w: CounterWrite, row: Profile, k: nat)
    requires 0 < k < |w.key| && w.key[k] == '-'
    ensures !Selects(w, row)
  {
  }
}
