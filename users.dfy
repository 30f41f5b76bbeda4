/**
 * Verification-code login (UserServiceImpl) over the shared store and the
 * user table: `sendCode` stores a code with a TTL; `login` checks it, finds
 * or creates the user, and stores the user's fields under a fresh token.
 */
module Users {
  import opened Wrappers
  import opened KeyValue
  import Keys

  /** A user row; `id` is assigned by the database on insert. */
  datatype User = User(id: Option<int>, phone: string, nickName: string, icon: Option<string>)

  /** The RedisConstants and SystemConstants login uses (code TTL in minutes, token TTL in seconds). */
  datatype LoginConstants = LoginConstants(codeKey: string, codeTtl: Positive, userKey: string,
                                           userTtl: Positive, nickNamePrefix: string)

  /** The user table: rows in insertion order and the next auto-increment id. */
  datatype UserTable = UserTable(rows: seq<User>, nextId: int)

  /** What `RandomUtil.randomString(10)` returns. */
  type NickSuffix = s: string | |s| == 10 witness "0000000000"

  /** Why `sendCode` or `login` did not succeed: a `Result.fail`, or an exception. */
  datatype Refusal = InvalidPhone | WrongCode | Raised(failure: Failure)

  /** `RandomUtil.randomNumbers(6)`, drawn from the random number `n`. */
  function SixDigits(n: nat): (code: string)
    ensures |code| == 6 && forall i :: 0 <= i < 6 ==> '0' <= code[i] <= '9'
  {
    [Keys.Digit(n / 100000 % 10), Keys.Digit(n / 10000 % 10), Keys.Digit(n / 1000 % 10),
     Keys.Digit(n / 100 % 10), Keys.Digit(n / 10 % 10), Keys.Digit(n % 10)]
  }

  datatype Sent<T> = Sent(result: Result<(), Refusal>, store: Store<T>)

  /**
   * `sendCode`: an invalid phone fails and writes nothing; a valid one gets
   * a six-digit code at `LOGIN_CODE_KEY + phone` for `LOGIN_CODE_TTL` minutes.
   */
  function CodeSent<T>(s: Store<T>, c: LoginConstants, phoneInvalid: string -> bool, phone: string,
                       random: nat, now: int): (o: Sent<T>)
    ensures phoneInvalid(phone) ==> o == Sent(Err(InvalidPhone), s)
    ensures !phoneInvalid(phone) ==>
      && o.result == Ok(())
      && var key := c.codeKey + phone;
      && key in o.store && o.store[key].deadline == Some(now + Millis(c.codeTtl, Minutes))
      && o.store[key].value.Text? && |o.store[key].value.s| == 6
      && (forall i :: 0 <= i < 6 ==> '0' <= o.store[key].value.s[i] <= '9')
      && SameExcept(s, o.store, {key})
  {
    if phoneInvalid(phone) then Sent(Err(InvalidPhone), s)
    else Sent(Ok(()), Put(s, c.codeKey + phone, Text(SixDigits(random)), Some(now + Millis(c.codeTtl, Minutes))))
  }

  /** The rows whose phone column equals `phone`, in table order. */
  function WithPhone(rows: seq<User>, phone: string): (r: seq<User>)
    ensures |r| <= |rows|
    ensures forall u :: u in r ==> u in rows && u.phone == phone
    ensures forall i :: 0 <= i < |rows| && rows[i].phone == phone ==> rows[i] in r
  {
    if rows == [] then []
    else
      var last := rows[|rows| - 1];
      WithPhone(rows[..|rows| - 1], phone) + if last.phone == phone then [last] else []
  }

  /** `createUserWithPhone`: a new row with the phone and a nickname of the prefix plus ten random characters. */
  function CreateUser(t: UserTable, c: LoginConstants, phone: string, suffix: NickSuffix): (p: (User, UserTable))
    ensures p.0.phone == phone && p.0.nickName == c.nickNamePrefix + suffix
    ensures |p.0.nickName| == |c.nickNamePrefix| + 10
    ensures p.0.id == Some(t.nextId) && p.0.icon.None?
    ensures p.1 == UserTable(t.rows + [p.0], t.nextId + 1)
  {
    var user := User(Some(t.nextId), phone, c.nickNamePrefix + suffix, None);
    (user, UserTable(t.rows + [user], t.nextId + 1))
  }

  /** Appending a row with the phone adds exactly that row to the phone's matches. */
  lemma WithPhoneAppend(rows: seq<User>, u: User)
    ensures WithPhone(rows + [u], u.phone) == WithPhone(rows, u.phone) + [u]
  {
  }

  /** The UserDTO of a user as a string map, null fields left out (`BeanUtil.beanToMap`). */
  function UserFields(u: User): (m: map<string, string>)
    ensures m.Keys <= {"id", "nickName", "icon"}
    ensures "nickName" in m && m["nickName"] == u.nickName
    ensures ("id" in m <==> u.id.Some?) && (u.id.Some? ==> m["id"] == Keys.LongText(u.id.value))
    ensures ("icon" in m <==> u.icon.Some?) && (u.icon.Some? ==> m["icon"] == u.icon.value)
  {
    var m := map["nickName" := u.nickName];
    var m := if u.id.Some? then m["id" := Keys.LongText(u.id.value)] else m;
    if u.icon.Some? then m["icon" := u.icon.value] else m
  }

  /** The stored code equals the submitted one (`cacheCode.equals(code)`). */
  predicate CodeMatches<T>(cached: Reply<T>, code: Option<string>) {
    cached.Bulk? && cached.v.Text? && code == Some(cached.v.s)
  }

  /**
   * The user `login` continues with: the phone's only row, a new row when
   * there is none, or TooManyResults from `one()` when there are several.
   */
  function FindOrCreate(t: UserTable, c: LoginConstants, phone: string, suffix: NickSuffix)
    : (r: Result<(User, UserTable), Failure>)
    ensures r.Err? <==> |WithPhone(t.rows, phone)| > 1
    ensures r.Ok? ==> WithPhone(r.value.1.rows, phone) == [r.value.0]
    ensures |WithPhone(t.rows, phone)| == 1 ==> r == Ok((WithPhone(t.rows, phone)[0], t))
    ensures |WithPhone(t.rows, phone)| == 0 ==> r == Ok(CreateUser(t, c, phone, suffix))
  {
    var found := WithPhone(t.rows, phone);
    if |found| > 1 then Err(TooManyResults)
    else if |found| == 1 then
      assert found == [found[0]];
      Ok((found[0], t))
    else
      var created := CreateUser(t, c, phone, suffix);
      WithPhoneAppend(t.rows, created.0);
      Ok(created)
  }

  /** The store holds the user's fields under the token key, for `LOGIN_USER_TTL` seconds from `now`. */
  ghost predicate HoldsSession<T>(s: Store<T>, tokenKey: string, user: User, ttl: Positive, now: int) {
    && tokenKey in s && s[tokenKey].value.Fields?
    && s[tokenKey].deadline == Some(now + Millis(ttl, Seconds))
    && forall f :: f in UserFields(user) ==> f in s[tokenKey].value.fields && s[tokenKey].value.fields[f] == UserFields(user)[f]
  }

  /** HSET of the user's fields at the token key, then EXPIRE with the token TTL. */
  function StoreSession<T>(s: Store<T>, tokenKey: string, user: User, ttl: Positive, now: int): (r: Result<Store<T>, Failure>)
    ensures r.Err? <==> Visible(s, tokenKey, now) && !s[tokenKey].value.Fields?
    ensures r.Err? ==> r.error == WrongType
    ensures r.Ok? ==> HoldsSession(r.value, tokenKey, user, ttl, now) && SameExcept(s, r.value, {tokenKey})
  {
    match HashPut(s, tokenKey, UserFields(user), now)
    case Err(f) => Err(f)
    case Ok(s') =>
      assert Visible(s', tokenKey, now);
      Ok(ExpireKey(s', tokenKey, Millis(ttl, Seconds), now))
  }

  datatype LoggedIn<T> = LoggedIn(result: Result<string, Refusal>, store: Store<T>, table: UserTable)

  /**
   * `login`. An invalid phone, a missing code or a code that differs fails
   * with no change. Otherwise the phone's user is found or created (never a
   * second one), the token key holds the user's fields with the token TTL,
   * the token is returned, and the code is left in place.
   */
  function LoginOutcome<T>(s: Store<T>, t: UserTable, c: LoginConstants, phoneInvalid: string -> bool, phone: string,
                    code: Option<string>, token: string, suffix: NickSuffix, now: int): (o: LoggedIn<T>)
    ensures phoneInvalid(phone) ==> o == LoggedIn(Err(InvalidPhone), s, t)
    ensures var cached := Read(s, c.codeKey + phone, now);
      !phoneInvalid(phone) && !cached.Mistyped? && !CodeMatches(cached, code) ==> o == LoggedIn(Err(WrongCode), s, t)
    ensures o.result.Ok? ==>
      && !phoneInvalid(phone) && CodeMatches(Read(s, c.codeKey + phone, now), code)
      && o.result.value == token
      && |WithPhone(o.table.rows, phone)| == 1
      && HoldsSession(o.store, c.userKey + token, WithPhone(o.table.rows, phone)[0], c.userTtl, now)
      && (|WithPhone(t.rows, phone)| == 1 ==> o.table == t)
      && (|WithPhone(t.rows, phone)| == 0 ==> o.table == CreateUser(t, c, phone, suffix).1)
    ensures SameExcept(s, o.store, {c.userKey + token})
    ensures o.table == t || o.table == CreateUser(t, c, phone, suffix).1
  {
    if phoneInvalid(phone) then LoggedIn(Err(InvalidPhone), s, t)
    else
      var cached := Read(s, c.codeKey + phone, now);
      if cached.Mistyped? then LoggedIn(Err(Raised(WrongType)), s, t)
      else if !CodeMatches(cached, code) then LoggedIn(Err(WrongCode), s, t)
      else match FindOrCreate(t, c, phone, suffix)
        case Err(f) => LoggedIn(Err(Raised(f)), s, t)
        case Ok((user, t')) =>
          match StoreSession(s, c.userKey + token, user, c.userTtl, now)
          case Err(f) => LoggedIn(Err(Raised(f)), s, t')
          case Ok(s') => LoggedIn(Ok(token), s', t')
  }

  /**
   * The code round trip: after `sendCode`, logging in with the code it
   * stored, before it expires, succeeds and returns the token.
   */
  lemma SendThenLogin<T>(s: Store<T>, t: UserTable, c: LoginConstants, phoneInvalid: string -> bool, phone: string,
                         random: nat, now: int, token: string, suffix: NickSuffix, later: int)
    requires !phoneInvalid(phone)
    requires |WithPhone(t.rows, phone)| <= 1
    requires c.codeKey + phone != c.userKey + token
    requires !Visible(s, c.userKey + token, later)
    requires now <= later < now + Millis(c.codeTtl, Minutes)
    ensures var sent := CodeSent(s, c, phoneInvalid, phone, random, now);
      LoginOutcome(sent.store, t, c, phoneInvalid, phone, Some(SixDigits(random)), token, suffix, later).result == Ok(token)
  {
  }

  /**
   * Since login leaves the code in place, the same code logs in again while
   * it lives, with another token, and the same user.
   */
  lemma CodeReusable<T>(s: Store<T>, t: UserTable, c: LoginConstants, phoneInvalid: string -> bool, phone: string,
                        code: Option<string>, token: string, token': string, suffix: NickSuffix, now: int, later: int)
    requires LoginOutcome(s, t, c, phoneInvalid, phone, code, token, suffix, now).result.Ok?
    requires Visible(s, c.codeKey + phone, later)
    requires c.codeKey + phone != c.userKey + token && c.codeKey + phone != c.userKey + token'
    requires !Visible(LoginOutcome(s, t, c, phoneInvalid, phone, code, token, suffix, now).store, c.userKey + token', later)
    ensures var first := LoginOutcome(s, t, c, phoneInvalid, phone, code, token, suffix, now);
      var second := LoginOutcome(first.store, first.table, c, phoneInvalid, phone, code, token', suffix, later);
      second.result == Ok(token') && second.table == first.table
  {
  }

  /** The user table as a mutable object (MyBatis-Plus `save`, `query().eq("phone", phone)`). */
  class UserDb {
    var rows: seq<User>
    var nextId: int

    constructor (rows: seq<User>, nextId: int)
      ensures this.rows == rows && this.nextId == nextId
    {
      this.rows := rows;
      this.nextId := nextId;
    }

    function Table(): UserTable
      reads this
    {
      UserTable(rows, nextId)
    }

    /** `save(user)`: inserts the row and sets its generated id. */
    method Save(user: User) returns (saved: User)
      modifies this
      ensures saved == user.(id := Some(old(nextId)))
      ensures rows == old(rows) + [saved] && nextId == old(nextId) + 1
    {
      saved := user.(id := Some(nextId));
      rows := rows + [saved];
      nextId := nextId + 1;
    }
  }

  /** UserServiceImpl over the shared store and the user table. */
  class UserService<T> {
    const store: KeyValueStore<T>
    const db: UserDb
    const c: LoginConstants
    /** `RegexUtils.isPhoneInvalid`. */
    const isPhoneInvalid: string -> bool

    constructor (store: KeyValueStore<T>, db: UserDb, c: LoginConstants, isPhoneInvalid: string -> bool)
      ensures this.store == store && this.db == db && this.c == c && this.isPhoneInvalid == isPhoneInvalid
    {
      this.store := store;
      this.db := db;
      this.c := c;
      this.isPhoneInvalid := isPhoneInvalid;
    }

    method SendCode(phone: string, random: nat, now: int) returns (r: Result<(), Refusal>)
      modifies store
      ensures var o := CodeSent(old(store.entries), c, isPhoneInvalid, phone, random, now);
        r == o.result && store.entries == o.store
    {
      if isPhoneInvalid(phone) {
        return Err(InvalidPhone);
      }
      var code := SixDigits(random);
      store.Set(c.codeKey + phone, Text(code), Some(now + Millis(c.codeTtl, Minutes)));
      r := Ok(());
    }

    method Login(phone: string, code: Option<string>, token: string, suffix: NickSuffix, now: int)
      returns (r: Result<string, Refusal>)
      modifies store, db
      ensures var o := LoginOutcome(old(store.entries), old(db.Table()), c, isPhoneInvalid, phone, code, token, suffix, now);
        r == o.result && store.entries == o.store && db.Table() == o.table
    {
      if isPhoneInvalid(phone) {
        return Err(InvalidPhone);
      }
      var cacheCode := store.Get(c.codeKey + phone, now);
      if cacheCode.Mistyped? {
        return Err(Raised(WrongType));
      }
      if !CodeMatches(cacheCode, code) {
        return Err(WrongCode);
      }
      var found := WithPhone(db.rows, phone);
      if |found| > 1 {
        return Err(Raised(TooManyResults));
      }
      var user;
      if |found| == 0 {
        user := CreateUserWithPhone(phone, suffix);
      } else {
        user := found[0];
      }
      var tokenKey := c.userKey + token;
      var put := store.PutAll(tokenKey, UserFields(user), now);
      if put.Err? {
        return Err(Raised(put.error));
      }
      store.Expire(tokenKey, Millis(c.userTtl, Seconds), now);
      r := Ok(token);
    }

    method CreateUserWithPhone(phone: string, suffix: NickSuffix) returns (user: User)
      modifies db
      ensures (user, db.Table()) == CreateUser(old(db.Table()), c, phone, suffix)
    {
      user := User(None, phone, c.nickNamePrefix + suffix, None);
      user := db.Save(user);
    }
  }
}
