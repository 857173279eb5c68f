/**
 * The user store: an optional signed-in user, a list of addresses, a list of
 * payment methods and an authenticated flag, changed by six reducers.
 */
module Users {
  import opened Wrappers
  import opened Seqs

  datatype User = User(
    id: string, firstName: string, lastName: string, email: string,
    phone: string, membership: string, avatar: string)

  /** `Partial<User>`: a field given as `Some` overrides, `None` leaves it alone. */
  datatype UserPatch = UserPatch(
    id: Option<string>, firstName: Option<string>, lastName: Option<string>, email: Option<string>,
    phone: Option<string>, membership: Option<string>, avatar: Option<string>)

  /** `type` in the source is a keyword here; it is `kind`. */
  datatype Address = Address(
    id: string, kind: string, name: string, street: string, city: string, state: string, zip: string)

  datatype PaymentMethod = PaymentMethod(
    id: string, kind: string, last4: string, expiryMonth: string, expiryYear: string, cardholder: string)

  /** The fields of a user, to speak of "the fields a patch gives". */
  datatype UserField = Id | FirstName | LastName | Email | Phone | Membership | Avatar

  function FieldOf(u: User, f: UserField): string {
    match f
    case Id => u.id
    case FirstName => u.firstName
    case LastName => u.lastName
    case Email => u.email
    case Phone => u.phone
    case Membership => u.membership
    case Avatar => u.avatar
  }

  function PatchOf(p: UserPatch, f: UserField): Option<string> {
    match f
    case Id => p.id
    case FirstName => p.firstName
    case LastName => p.lastName
    case Email => p.email
    case Phone => p.phone
    case Membership => p.membership
    case Avatar => p.avatar
  }

  /** `{ ...u, ...p }` */
  function Merged(u: User, p: UserPatch): User {
    User(
      p.id.GetOr(u.id), p.firstName.GetOr(u.firstName), p.lastName.GetOr(u.lastName),
      p.email.GetOr(u.email), p.phone.GetOr(u.phone), p.membership.GetOr(u.membership),
      p.avatar.GetOr(u.avatar))
  }

  /** Merging overwrites exactly the fields the patch gives and keeps every other field. */
  lemma MergeOverwritesGivenFields(u: User, p: UserPatch)
    ensures forall f :: PatchOf(p, f).Some? ==> FieldOf(Merged(u, p), f) == PatchOf(p, f).value
    ensures forall f :: PatchOf(p, f).None? ==> FieldOf(Merged(u, p), f) == FieldOf(u, f)
  {
    forall f
      ensures FieldOf(Merged(u, p), f) == PatchOf(p, f).GetOr(FieldOf(u, f))
    {
      match f
      case Id =>
      case FirstName =>
      case LastName =>
      case Email =>
      case Phone =>
      case Membership =>
      case Avatar =>
    }
  }

  /** Merging the same patch twice is merging it once; the empty patch changes nothing. */
  lemma MergeIdempotent(u: User, p: UserPatch)
    ensures Merged(Merged(u, p), p) == Merged(u, p)
    ensures Merged(u, UserPatch(None, None, None, None, None, None, None)) == u
  {
  }

  function AddressId(a: Address): string {
    a.id
  }

  /** `updateAddress` on a list: replace the first entry with the same id. */
  function AddressReplaced(addresses: seq<Address>, a: Address): seq<Address> {
    var i := FirstIndex(addresses, AddressId, a.id);
    if i < 0 then addresses else addresses[i := a]
  }

  /**
   * The first address with the new one's id is replaced by it; length and all
   * other entries are kept; with no such id nothing changes.
   */
  lemma AddressReplacedSpec(addresses: seq<Address>, a: Address)
    ensures |AddressReplaced(addresses, a)| == |addresses|
    ensures forall i :: 0 <= i < |addresses| && addresses[i].id == a.id
                        && (forall j :: 0 <= j < i ==> addresses[j].id != a.id) ==>
              AddressReplaced(addresses, a) == addresses[i := a]
    ensures (forall j :: 0 <= j < |addresses| ==> addresses[j].id != a.id) ==>
              AddressReplaced(addresses, a) == addresses
  {
    var k := FirstIndex(addresses, AddressId, a.id);
    forall i | 0 <= i < |addresses| && addresses[i].id == a.id
               && (forall j :: 0 <= j < i ==> addresses[j].id != a.id)
      ensures k == i
    {
      assert AddressId(addresses[i]) == a.id;
    }
  }

  predicate UniqueAddressIds(addresses: seq<Address>) {
    forall i, j :: 0 <= i < j < |addresses| ==> addresses[i].id != addresses[j].id
  }

  /**
   * `addAddress` does not check ids: appending an address whose id is
   * already in the list leaves two entries with that id, and `updateAddress`
   * with that id then only reaches the earlier one.
   */
  lemma AddAddressAllowsDuplicateIds(addresses: seq<Address>, a: Address, i: int, b: Address)
    requires 0 <= i < |addresses| && addresses[i].id == a.id
    requires b.id == a.id
    ensures !UniqueAddressIds(addresses + [a])
    ensures |AddressReplaced(addresses + [a], b)| == |addresses| + 1
    ensures AddressReplaced(addresses + [a], b)[|addresses|] == a
  {
    var s := addresses + [a];
    assert s[i].id == s[|addresses|].id;
    AddressReplacedSpec(s, b);
  }

  // The initial state of the slice.

  const AlexAvatar: string := "https://lh3.googleusercontent.com/aida-public/AB6AXuApiIdia871HIetL9pMcR77z1IUX7waSC6G05kwl6B4gG1jK7NSlpJYF0lXGbuaNgiMdgcCnwDqRdxFGuOAF82exL1Se0U2i0JerVXIt8BnXnGRR9A5zzyI5_yM2JZNBF64uJZIfp2W_Qo8LTKD05YoOukWWAERf-RAe2y7kBBoleLXpC3riwooVx6R8hsMYL6jG6lgazQD_ASDqDwNRRCqB7S9KRdZZQ2f7HG2Xwq5y8DkZjmBYT075ecauunAdXys4tOv0toQaIU"

  const InitialUser: User := User("1", "Alex", "Johnson", "alex.j@example.com", "+1 (555) 123-4567", "Gold Member", AlexAvatar)

  const InitialAddress: Address := Address("1", "Home", "Alex Johnson", "123 Maple Avenue, Apt 4B", "San Francisco", "CA", "94105")

  const InitialPaymentMethod: PaymentMethod := PaymentMethod("1", "VISA", "4288", "12", "25", "Alex Johnson")

  class UserStore {
    var user: Option<User>
    var addresses: seq<Address>
    var paymentMethods: seq<PaymentMethod>
    var isAuthenticated: bool

    /** The initial state: Alex Johnson signed in, with one address and one card. */
    constructor ()
      ensures user == Some(InitialUser)
      ensures addresses == [InitialAddress] && paymentMethods == [InitialPaymentMethod]
      ensures isAuthenticated
    {
      user := Some(InitialUser);
      addresses := [InitialAddress];
      paymentMethods := [InitialPaymentMethod];
      isAuthenticated := true;
    }

    /** `updateProfile`: merge the patch into the user, if there is one. */
    method UpdateProfile(p: UserPatch)
      modifies this`user
      ensures old(user).Some? ==> user == Some(Merged(old(user).value, p))
      ensures old(user).None? ==> user == None
      ensures addresses == old(addresses) && paymentMethods == old(paymentMethods)
      ensures isAuthenticated == old(isAuthenticated)
    {
      if user.Some? {
        user := Some(Merged(user.value, p));
      }
    }

    /** `updatePassword`: acknowledged, nothing changes. */
    method UpdatePassword()
      ensures unchanged(this)
    {
    }

    /** `addAddress`: append, without looking at ids. */
    method AddAddress(a: Address)
      modifies this`addresses
      ensures addresses == old(addresses) + [a]
      ensures user == old(user) && paymentMethods == old(paymentMethods)
      ensures isAuthenticated == old(isAuthenticated)
    {
      addresses := addresses + [a];
    }

    /** `updateAddress`: overwrite the first address with the same id, if any. */
    method UpdateAddress(a: Address)
      modifies this`addresses
      ensures addresses == AddressReplaced(old(addresses), a)
      ensures user == old(user) && paymentMethods == old(paymentMethods)
      ensures isAuthenticated == old(isAuthenticated)
    {
      var i := Find(addresses, AddressId, a.id);
      if i != -1 {
        addresses := addresses[i := a];
      }
    }

    /** `addPaymentMethod`: append. */
    method AddPaymentMethod(m: PaymentMethod)
      modifies this`paymentMethods
      ensures paymentMethods == old(paymentMethods) + [m]
      ensures user == old(user) && addresses == old(addresses)
      ensures isAuthenticated == old(isAuthenticated)
    {
      paymentMethods := paymentMethods + [m];
    }

    /** `logout`: forget the user; addresses and payment methods stay. */
    method Logout()
      modifies this`isAuthenticated, this`user
      ensures !isAuthenticated && user == None
      ensures addresses == old(addresses) && paymentMethods == old(paymentMethods)
    {
      isAuthenticated := false;
      user := None;
    }
  }
}
