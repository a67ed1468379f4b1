/** The user-management page (src/pages/dashboard/users.tsx): its own list
    of accounts (separate from the sign-in table), the search box, and the
    add, delete and activate/deactivate actions. The page sits behind the
    admin-only layout gate. Ids are decimal strings; the list keeps them in
    strictly increasing numeric order, which makes them unique. */
module UsersPage {
  import opened Seqs
  import opened Text
  import opened Types
  import opened DataContext

  /** The role the page hands to the layout gate. */
  const RequiredRole: string := "admin"

  datatype AccountStatus = Active | Inactive {
    function Name(): string {
      match this
      case Active => "active"
      case Inactive => "inactive"
    }
  }

  /** A row of the page's list. The add form's fields are spread into the
      new row, so an added account also carries the typed password; the
      seeded accounts have none. */
  datatype Account = Account(
    id: string, name: string, username: string, email: string, role: string,
    status: AccountStatus, createdAt: string, avatar: string, password: Option<string>)

  /** The add-user form. */
  datatype AccountForm = AccountForm(name: string, username: string, email: string, role: string, password: string)

  const EmptyAccountForm: AccountForm := AccountForm("", "", "", "student", "")

  const SeedAccounts: seq<Account> := [
    Account("1", "Admin User", "admin", "admin@hostel.com", "admin", Active, "2023-01-15", AvatarFor("admin"), None),
    Account("2", "Staff Member", "staff", "staff@hostel.com", "staff", Active, "2023-01-20", AvatarFor("staff"), None),
    Account("3", "John Student", "student", "student@hostel.com", "student", Active, "2023-02-05", AvatarFor("student"), None),
    Account("4", "Jane Smith", "jane.smith", "jane@hostel.com", "student", Inactive, "2023-02-10", AvatarFor("jane"), None),
    Account("5", "David Wilson", "david.wilson", "david@hostel.com", "staff", Active, "2023-02-15", AvatarFor("david"), None)
  ]

  function AccountKey(a: Account): string { a.id }

  /** Every id is a decimal string and the numbers strictly increase along
      the list. */
  predicate IncreasingIds(accounts: seq<Account>) {
    (forall i :: 0 <= i < |accounts| ==> IsDecimal(accounts[i].id))
    && (forall i, j :: 0 <= i < j < |accounts| ==> ParseNat(accounts[i].id) < ParseNat(accounts[j].id))
  }

  /** Increasing ids are pairwise distinct. */
  lemma IncreasingIdsDistinct(accounts: seq<Account>)
    requires IncreasingIds(accounts)
    ensures forall i, j :: 0 <= i < j < |accounts| ==> accounts[i].id != accounts[j].id
  {
  }

  lemma SeedIdsIncrease()
    ensures IncreasingIds(SeedAccounts)
  {
    assert ParseNat("1") == 1 && ParseNat("2") == 2 && ParseNat("3") == 3 && ParseNat("4") == 4 && ParseNat("5") == 5;
  }

  /** `(parseInt(users[users.length - 1]?.id || "0") + 1).toString()`. */
  function NewAccountId(accounts: seq<Account>): (id: string)
    requires IncreasingIds(accounts)
    ensures IsDecimal(id)
    ensures ParseNat(id) == (if accounts == [] then 0 else ParseNat(accounts[|accounts| - 1].id)) + 1
  {
    var last := if accounts == [] then 0 else ParseNat(accounts[|accounts| - 1].id);
    ParseNatToString(last + 1);
    NatToString(last + 1)
  }

  /** The row `handleAddUser` appends. */
  function NewAccount(accounts: seq<Account>, form: AccountForm, today: string): Account
    requires IncreasingIds(accounts)
  {
    Account(NewAccountId(accounts), form.name, form.username, form.email, form.role, Active, today,
            AvatarFor(form.username), Some(form.password))
  }

  /** An add keeps the ids increasing, so the new id is unlike every other. */
  lemma {:induction false} AddKeepsIncreasingIds(accounts: seq<Account>, form: AccountForm, today: string)
    requires IncreasingIds(accounts)
    ensures IncreasingIds(accounts + [NewAccount(accounts, form, today)])
    ensures forall i :: 0 <= i < |accounts| ==> accounts[i].id != NewAccount(accounts, form, today).id
  {
    var r := accounts + [NewAccount(accounts, form, today)];
    forall i, j | 0 <= i < j < |r| ensures ParseNat(r[i].id) < ParseNat(r[j].id) {
      if j == |accounts| && i < |accounts| - 1 {
        assert ParseNat(accounts[i].id) < ParseNat(accounts[|accounts| - 1].id);
      }
    }
  }

  /** A filter keeps the ids increasing. */
  lemma {:induction false} FilterKeepsIncreasingIds(accounts: seq<Account>, p: Account -> bool)
    requires IncreasingIds(accounts)
    ensures IncreasingIds(Filter(accounts, p))
    decreases |accounts|
  {
    if accounts != [] {
      FilterKeepsIncreasingIds(accounts[1..], p);
      var rest := Filter(accounts[1..], p);
      FilterMembers(accounts[1..], p);
      if p(accounts[0]) {
        var r := [accounts[0]] + rest;
        forall i, j | 0 <= i < j < |r| ensures ParseNat(r[i].id) < ParseNat(r[j].id) {
          if i == 0 {
            assert r[j] in accounts[1..];
            var k :| 0 <= k < |accounts[1..]| && accounts[1..][k] == r[j];
            assert accounts[k + 1] == r[j];
          }
        }
        forall i | 0 <= i < |r| ensures IsDecimal(r[i].id) {
          if i > 0 {
            assert r[i] in accounts[1..];
          }
        }
      }
    }
  }

  /** `{ ...user, status: user.status === "active" ? "inactive" : "active" }`. */
  function Toggle(a: Account, u: ()): (b: Account)
    ensures b.id == a.id && b.status != a.status
  {
    a.(status := if a.status == Active then Inactive else Active)
  }

  /** Toggling the same id twice restores the list exactly. */
  lemma {:induction false} ToggleTwiceRestores(accounts: seq<Account>, id: string)
    ensures Updated(Updated(accounts, AccountKey, id, Toggle, ()), AccountKey, id, Toggle, ()) == accounts
  {
    var once := Updated(accounts, AccountKey, id, Toggle, ());
    var twice := Updated(once, AccountKey, id, Toggle, ());
    forall i | 0 <= i < |accounts| ensures twice[i] == accounts[i] {
      UpdateRewritesMatches(accounts, AccountKey, id, Toggle, (), i);
      UpdateRewritesMatches(once, AccountKey, id, Toggle, (), i);
      if accounts[i].id == id {
        assert once[i] == Toggle(accounts[i], ());
      } else {
        assert once[i] == accounts[i];
      }
    }
  }

  /** Toggle flips the status of the matching accounts and changes nothing
      else. */
  lemma ToggleFlipsMatchesOnly(accounts: seq<Account>, id: string, i: int)
    requires 0 <= i < |accounts|
    ensures var r := Updated(accounts, AccountKey, id, Toggle, ());
      if accounts[i].id == id then r[i] == accounts[i].(status := if accounts[i].status == Active then Inactive else Active)
      else r[i] == accounts[i]
  {
    UpdateRewritesMatches(accounts, AccountKey, id, Toggle, (), i);
  }

  /** A toggle keeps every id, so it keeps the ids increasing. */
  lemma ToggleKeepsIncreasingIds(accounts: seq<Account>, id: string)
    requires IncreasingIds(accounts)
    ensures IncreasingIds(Updated(accounts, AccountKey, id, Toggle, ()))
  {
    var r := Updated(accounts, AccountKey, id, Toggle, ());
    forall i | 0 <= i < |accounts| ensures r[i].id == accounts[i].id {
      UpdateRewritesMatches(accounts, AccountKey, id, Toggle, (), i);
    }
  }

  /** The search predicate: the lower-cased query inside the lower-cased
      name, email, username or role. */
  function Matches(query: string): Account -> bool {
    (a: Account) =>
      var q := ToLower(query);
      Includes(ToLower(a.name), q) || Includes(ToLower(a.email), q)
      || Includes(ToLower(a.username), q) || Includes(ToLower(a.role), q)
  }

  /** `filteredUsers`: exactly the accounts whose name, email, username or
      role holds the query, ignoring case, in their original order. */
  function FilteredAccounts(accounts: seq<Account>, query: string): (r: seq<Account>)
    ensures |r| <= |accounts|
    ensures forall a :: a in r <==>
      a in accounts && (Includes(ToLower(a.name), ToLower(query)) || Includes(ToLower(a.email), ToLower(query))
                        || Includes(ToLower(a.username), ToLower(query)) || Includes(ToLower(a.role), ToLower(query)))
    ensures IsSubseq(r, accounts)
  {
    FilterMembers(accounts, Matches(query));
    FilterExact(accounts, Matches(query));
    Filter(accounts, Matches(query))
  }

  /** An empty search keeps every account, and the search ignores the case
      of the query. */
  lemma SearchLaws(accounts: seq<Account>, query: string)
    ensures FilteredAccounts(accounts, "") == accounts
    ensures FilteredAccounts(accounts, ToLower(query)) == FilteredAccounts(accounts, query)
  {
    forall i | 0 <= i < |accounts| ensures Matches("")(accounts[i]) {
      IncludesEmpty(ToLower(accounts[i].name));
    }
    FilterKeepsAll(accounts, Matches(""));
    ToLowerIdempotent(query);
    assert Matches(ToLower(query)) == Matches(query);
  }

  class UsersPage {
    var accounts: seq<Account>
    var searchQuery: string
    var newAccount: AccountForm

    ghost predicate Valid()
      reads this
    {
      IncreasingIds(accounts)
    }

    constructor ()
      ensures Valid() && accounts == SeedAccounts && searchQuery == "" && newAccount == EmptyAccountForm
    {
      accounts, searchQuery, newAccount := SeedAccounts, "", EmptyAccountForm;
      SeedIdsIncrease();
    }

    /** `handleAddUser`: one account appended, the form reset. */
    method HandleAddUser(today: string)
      requires Valid()
      modifies this`accounts, this`newAccount
      ensures Valid()
      ensures accounts == old(accounts) + [NewAccount(old(accounts), old(newAccount), today)]
      ensures newAccount == EmptyAccountForm
    {
      AddKeepsIncreasingIds(accounts, newAccount, today);
      accounts := accounts + [NewAccount(accounts, newAccount, today)];
      newAccount := EmptyAccountForm;
    }

    /** `handleDeleteUser`: every account with the id removed. */
    method HandleDeleteUser(id: string)
      requires Valid()
      modifies this`accounts
      ensures Valid()
      ensures accounts == Deleted(old(accounts), AccountKey, id)
    {
      FilterKeepsIncreasingIds(accounts, KeyIsNot(AccountKey, id));
      accounts := Deleted(accounts, AccountKey, id);
    }

    /** `handleToggleStatus`: the matching account's status flipped. */
    method HandleToggleStatus(id: string)
      requires Valid()
      modifies this`accounts
      ensures Valid()
      ensures accounts == Updated(old(accounts), AccountKey, id, Toggle, ())
    {
      ToggleKeepsIncreasingIds(accounts, id);
      accounts := Updated(accounts, AccountKey, id, Toggle, ());
    }
  }
}
