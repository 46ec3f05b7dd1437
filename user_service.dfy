/**
 * userService: the registry's operations as methods on the database they
 * change. Each method follows the source's steps (look up, check, allocate,
 * build the document, write, delete) and is proved to have exactly the
 * effect of the corresponding step of UserStore.
 */
module UserService {
  import opened Wrappers
  import opened UserIds
  import opened Documents
  import opened UserStore

  class Registry {
    /** counters/customerCounter and counters/franchiseCounter: currentCount, or None while absent. */
    var customerCounter: Option<nat>
    var franchiseCounter: Option<nat>
    /** The users collection, keyed by user id. */
    var users: map<string, Doc>

    function State(): Store
      reads this
    {
      Store(customerCounter, franchiseCounter, users)
    }

    /** A database with neither counter document and no users. */
    constructor ()
      ensures State() == Store(None, None, map[])
      ensures CategoryPinned(users) && NumbersCovered(State())
    {
      customerCounter, franchiseCounter, users := None, None, map[];
    }

    /** generateNextUserId: read the selected counter, write back the next value, format the id. */
    method GenerateNextUserId(category: string) returns (id: string)
      modifies this
      ensures (State(), id) == Allocate(old(State()), category)
    {
      var current := if category == "cu" then customerCounter else franchiseCounter;
      var nextNumber: nat;
      if current.None? {
        nextNumber := 1;
      } else {
        nextNumber := current.value + 1;
      }
      if category == "cu" {
        customerCounter := Some(nextNumber);
      } else {
        franchiseCounter := Some(nextNumber);
      }
      id := FormatUserId(category, nextNumber);
    }

    /**
     * getUserByEmail: a falsy email is refused, a non-string one makes
     * toLowerCase throw; otherwise some user whose email equals the
     * lower-cased input, or None.
     */
    method GetUserByEmail(email: Value) returns (r: Result<Option<Doc>, Error>)
      ensures !Truthy(email) ==> r == Err(EmailRequired)
      ensures Truthy(email) && !email.Str? ==> r == Err(TypeError)
      ensures email.Str? && email.s != "" ==> r.Ok? && (r.value.None? <==> !EmailRegistered(users, email.s))
      ensures r.Ok? && r.value.Some? ==>
        exists k :: k in users && Get(users[k], EmailKey) == Str(Lower(email.s)) && r.value.value == WithId(k, users[k])
    {
      if !Truthy(email) {
        return Err(EmailRequired);
      }
      if !email.Str? {
        return Err(TypeError);
      }
      var wanted := Str(Lower(email.s));
      if k :| k in users && Get(users[k], EmailKey) == wanted {
        r := Ok(Some(WithId(k, users[k])));
      } else {
        r := Ok(None);
      }
    }

    /** getUserById: the stored document with its id, or None. */
    method GetUserById(userId: string) returns (r: Option<Doc>)
      ensures r.Some? <==> userId in users
      ensures r.Some? ==> r.value == WithId(userId, users[userId])
      ensures r.Some? ==> Get(r.value, CategoryKey) == Get(users[userId], CategoryKey)
    {
      if userId !in users {
        return None;
      }
      r := Some(WithId(userId, users[userId]));
    }

    /** createUser. */
    method CreateUser(userData: Doc, now: int, committed: bool) returns (r: Result<string, Error>)
      modifies this
      ensures Step(State(), r) == CreateStep(old(State()), userData, now, committed)
    {
      var existingUser := GetUserByEmail(Get(userData, EmailKey));
      if existingUser.Err? {
        return Err(existingUser.error);
      }
      if existingUser.value.Some? {
        return Err(EmailExists);
      }
      var userId := GenerateNextUserId("cu");
      var userDoc := CreatedDoc(userData, userId, now);
      if !committed {
        return Err(StoreFailure);
      }
      users := users[userId := userDoc];
      r := Ok(userId);
    }

    /** updateUser. */
    method UpdateUser(userId: string, updateData: Doc, now: int) returns (r: Result<(), Error>)
      modifies this
      ensures Step(State(), r) == UpdateStep(old(State()), userId, updateData, now)
    {
      var data := updateData;
      var category := DetectCategory(userId);
      if category.Some? {
        data := data[CategoryKey := CategoryValue(category)];
      }
      if userId !in users {
        return Err(UserNotFound);
      }
      users := users[userId := users[userId] + data + map[UpdatedAtKey := Timestamp(now)]];
      r := Ok(());
    }

    /** updateUserActiveStatus. */
    method UpdateUserActiveStatus(userId: string, isActive: bool, now: int) returns (r: Result<(), Error>)
      modifies this
      ensures Step(State(), r) == ActiveStatusStep(old(State()), userId, isActive, now)
    {
      if userId == "" {
        return Err(UserIdRequired);
      }
      if userId !in users {
        return Err(UserNotFound);
      }
      users := users[userId := users[userId] + map[IsActiveKey := Bool(isActive), LastActiveAtKey := Timestamp(now), UpdatedAtKey := Timestamp(now)]];
      r := Ok(());
    }

    /** upgradeToFranchise: the franchise id is settled before the move transaction runs. */
    method UpgradeToFranchise(userId: string, now: int, committed: bool) returns (r: Result<string, Error>)
      modifies this
      ensures Step(State(), r) == UpgradeStep(old(State()), userId, now, committed)
    {
      if userId !in users {
        return Err(UserNotFound);
      }
      var userData := users[userId];
      if DetectCategory(userId) != Some(Customer) {
        return Err(NotCustomer);
      }
      var newFranchiseId: string;
      match ReadLineage(Get(userData, PreviousFranchiseIdKey)) {
        case NotAString =>
          return Err(TypeError);
        case LinkedId(id) =>
          if StartsWith(id, "fr") {
            newFranchiseId := id;
          } else {
            newFranchiseId := GenerateNextUserId("fr");
          }
        case Falsy =>
          newFranchiseId := GenerateNextUserId("fr");
      }
      var updatedUserData := UpgradedDoc(userData, userId, newFranchiseId, now);
      if !committed {
        return Err(StoreFailure);
      }
      users := users[newFranchiseId := updatedUserData];
      users := users - {userId};
      r := Ok(newFranchiseId);
    }

    /** revertToCustomer. */
    method RevertToCustomer(userId: string, now: int, committed: bool) returns (r: Result<string, Error>)
      modifies this
      ensures Step(State(), r) == RevertStep(old(State()), userId, now, committed)
    {
      if userId !in users {
        return Err(UserNotFound);
      }
      var userData := users[userId];
      if DetectCategory(userId) != Some(Franchise) {
        return Err(NotFranchise);
      }
      var originalCustomerId: string;
      match ReadLineage(Get(userData, PreviousIdKey)) {
        case Falsy =>
          return Err(LineageMissing);
        case NotAString =>
          return Err(TypeError);
        case LinkedId(id) =>
          if !StartsWith(id, "cu") {
            return Err(LineageMissing);
          }
          originalCustomerId := id;
      }
      var updatedUserData := RevertedDoc(userData, userId, originalCustomerId, now);
      if !committed {
        return Err(StoreFailure);
      }
      users := users[originalCustomerId := updatedUserData];
      users := users - {userId};
      r := Ok(originalCustomerId);
    }
  }
}
