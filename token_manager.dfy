/**
 * The credential store and its rotation.
 *
 * Credentials are the JSON files of one directory that carry a `bearer_token`.
 * The manager hands them out round-robin: the current credential serves R
 * calls in a row (R is the configured rotation count), then the next one takes
 * over. Loading puts the index at -1, which Python's negative indexing turns
 * into the LAST credential, so that is the first one handed out.
 *
 * The file system is a parameter: a directory is either missing or a listing
 * of its entries, each with the result of parsing it (None when it cannot be
 * read or is not JSON).
 */
module TokenManager {
  import opened Wrappers
  import opened Strings
  import opened Json
  import opened UsageStats

  // ----- paths -----

  /** `os.path.basename`: everything after the last slash. */
  function Basename(p: string): (b: string)
    ensures '/' !in b
    ensures |b| <= |p| && b == p[|p| - |b|..]
    decreases |p|
  {
    if p == [] || p[|p| - 1] == '/' then ""
    else
      var b' := Basename(p[..|p| - 1]);
      assert p[..|p| - 1][|p| - 1 - |b'|..] + [p[|p| - 1]] == p[|p| - 1 - |b'|..];
      b' + [p[|p| - 1]]
  }

  /** `os.path.join(dir, name)` on POSIX. */
  function PathJoin(dir: string, name: string): string {
    if StartsWith(name, "/") then name
    else if dir == [] || dir[|dir| - 1] == '/' then dir + name
    else dir + "/" + name
  }

  lemma {:induction false} BasenameAfterSlash(prefix: string, name: string)
    requires '/' !in name
    requires prefix == [] || prefix[|prefix| - 1] == '/'
    ensures Basename(prefix + name) == name
    decreases |name|
  {
    if name == [] {
      assert prefix + name == prefix;
    } else {
      var p := prefix + name;
      var last := name[|name| - 1];
      assert last in name;
      assert p[..|p| - 1] == prefix + name[..|name| - 1];
      assert p[|p| - 1] == last;
      assert Basename(p) == Basename(p[..|p| - 1]) + [last];
      BasenameAfterSlash(prefix, name[..|name| - 1]);
      assert name[..|name| - 1] + [last] == name;
    }
  }

  /** The basename of a file placed in a directory is the file's own name. */
  lemma BasenameJoin(dir: string, name: string)
    requires '/' !in name
    ensures Basename(PathJoin(dir, name)) == name
  {
    if name != [] {
      assert name[0] != '/';
      assert name[..1][0] == name[0];
    }
    assert !StartsWith(name, "/");
    if dir == [] || dir[|dir| - 1] == '/' {
      BasenameAfterSlash(dir, name);
    } else {
      var slashed := dir + "/";
      assert slashed[|slashed| - 1] == '/';
      assert PathJoin(dir, name) == slashed + name;
      BasenameAfterSlash(slashed, name);
    }
  }

  // ----- the directory and loading -----

  datatype Entry = Entry(name: string, parsed: Option<Value>)
  datatype Dir = Missing | Listing(entries: seq<Entry>)
  datatype Credential = Credential(filePath: string, data: Value)

  /** Names `glob("*.json")` matches: ending in ".json" and not hidden. */
  predicate Globbed(name: string) {
    EndsWith(name, ".json") && !StartsWith(name, ".")
  }

  /** A file is kept when glob lists it, it parses, and `'bearer_token' in data`
      holds. An `in` that raises (a number, a boolean, null) is caught and the
      file skipped. */
  predicate Keeps(e: Entry) {
    Globbed(e.name) && e.parsed.Some? && In("bearer_token", e.parsed.value) == Success(true)
  }

  function CredentialOf(dir: string, e: Entry): Credential
    requires e.parsed.Some?
  {
    Credential(PathJoin(dir, e.name), e.parsed.value)
  }

  /** The credentials kept from a listing, in listing order. */
  function Kept(dir: string, es: seq<Entry>): seq<Credential>
    decreases |es|
  {
    if es == [] then []
    else
      var last := es[|es| - 1];
      Kept(dir, es[..|es| - 1]) + (if Keeps(last) then [CredentialOf(dir, last)] else [])
  }

  /** What `load_all_tokens` ends with: nothing for a missing directory. */
  function Loaded(dir: string, d: Dir): seq<Credential> {
    match d
    case Missing => []
    case Listing(es) => Kept(dir, es)
  }

  /** Loading is a filter that keeps order: the listing's parts load independently. */
  lemma {:induction false} KeptAppend(dir: string, a: seq<Entry>, b: seq<Entry>)
    ensures Kept(dir, a + b) == Kept(dir, a) + Kept(dir, b)
    decreases |b|
  {
    if b == [] {
      assert a + b == a;
    } else {
      var ab := a + b;
      assert ab[..|ab| - 1] == a + b[..|b| - 1];
      assert ab[|ab| - 1] == b[|b| - 1];
      KeptAppend(dir, a, b[..|b| - 1]);
    }
  }

  /** A single entry loads as itself exactly when it qualifies. */
  lemma KeptOne(dir: string, e: Entry)
    ensures Keeps(e) ==> Kept(dir, [e]) == [CredentialOf(dir, e)]
    ensures !Keeps(e) ==> Kept(dir, [e]) == []
  {
    assert [e][..0] == [];
  }

  /** Every loaded credential comes from a qualifying entry of the listing, and
      so carries a `bearer_token`; every qualifying entry is loaded. */
  lemma {:induction false} KeptMembers(dir: string, es: seq<Entry>)
    ensures forall c | c in Kept(dir, es) :: exists e | e in es :: Keeps(e) && c == CredentialOf(dir, e)
    ensures forall e | e in es && Keeps(e) :: CredentialOf(dir, e) in Kept(dir, es)
    ensures forall c | c in Kept(dir, es) :: In("bearer_token", c.data) == Success(true)
    decreases |es|
  {
    if es != [] {
      var init := es[..|es| - 1];
      KeptMembers(dir, init);
      assert es == init + [es[|es| - 1]];
      forall e | e in es
        ensures e == es[|es| - 1] || e in init
      {
      }
    }
  }

  // ----- rotation -----

  /** `current_index` and `usage_count`. */
  datatype Rotation = Rotation(index: int, usage: int)

  /** What the two counters always satisfy: the index is never below -1 (the
      value loading sets) and the usage count is never negative. */
  predicate Sane(s: Rotation) {
    s.index >= -1 && s.usage >= 0
  }

  /** Python's `xs[i]` position for `-n <= i < n`. */
  function PyIndex(i: int, n: nat): (k: nat)
    requires -(n as int) <= i < n
    ensures k < n
    ensures i >= 0 ==> k == i
    ensures i < 0 ==> k == n + i
  {
    if i < 0 then n + i else i
  }

  function Max(a: int, b: int): int {
    if a >= b then a else b
  }

  /** One call of `get_next_credential`: the new counters and the position of
      the credential handed out, if any. */
  datatype Pick = Pick(state: Rotation, pos: Option<nat>)

  function Next(s: Rotation, n: nat, r: int): (p: Pick)
    requires Sane(s)
    ensures Sane(p.state)
    ensures p.pos.None? <==> n == 0
    ensures n == 0 ==> p.state == s
    ensures p.pos.Some? ==> p.pos.value < n && p.state.index < n
    ensures n > 0 ==> 1 <= p.state.usage <= Max(r, 1)
  {
    if n == 0 then Pick(s, None)
    else
      var s1 := if s.index >= n then Rotation(0, 0) else s;
      var s2 := if s1.usage >= r then Rotation((s1.index + 1) % n, 0) else s1;
      Pick(Rotation(s2.index, s2.usage + 1), Some(PyIndex(s2.index, n)))
  }

  /** The rotation rule: an index past the end starts over at 0 with a fresh
      count; once the count reaches R the index moves on by exactly one,
      wrapping at n, and the new credential is used once; otherwise the same
      credential is used once more. */
  lemma NextRule(s: Rotation, n: nat, r: int)
    requires Sane(s) && n > 0
    ensures var p := Next(s, n, r);
      var s1 := if s.index >= n then Rotation(0, 0) else s;
      if s1.usage >= r then
        p.state == Rotation((s1.index + 1) % n, 1) && p.pos == Some(p.state.index) && 0 <= p.state.index
      else
        p.state == Rotation(s1.index, s1.usage + 1) &&
        p.pos == Some(if s1.index == -1 then n - 1 else s1.index)
  {
  }

  /** The counters and the positions handed out over `k` successive calls. */
  function Run(s: Rotation, n: nat, r: int, k: nat): (res: (Rotation, seq<nat>))
    requires Sane(s) && n > 0
    ensures Sane(res.0) && |res.1| == k
    ensures forall j | 0 <= j < k :: res.1[j] < n
    decreases k
  {
    if k == 0 then (s, [])
    else
      var prev := Run(s, n, r, k - 1);
      var p := Next(prev.0, n, r);
      (p.state, prev.1 + [p.pos.value])
  }

  /** The counters right after loading (usage count zero, as on first construction). */
  const Fresh := Rotation(-1, 0)

  /** The counters after `k` calls from `Fresh`, in closed form. */
  function FreshAfter(n: nat, r: nat, k: nat): Rotation
    requires n > 0 && r > 0
  {
    if k == 0 then Fresh
    else
      var b := (k - 1) / r;
      Rotation(if b == 0 then -1 else (b - 1) % n, (k - 1) % r + 1)
  }

  lemma {:induction false} MulAtLeast(d: int, r: int)
    requires d >= 1 && r > 0
    ensures d * r >= r
    decreases d
  {
    if d > 1 {
      MulAtLeast(d - 1, r);
      assert d * r == (d - 1) * r + r;
    }
  }

  lemma DivModUnique(x: int, r: int, q: int, m: int)
    requires r > 0 && 0 <= m < r && x == q * r + m
    ensures x / r == q && x % r == m
  {
    var q', m' := x / r, x % r;
    assert x == q' * r + m';
    if q > q' {
      MulAtLeast(q - q', r);
      assert false;
    } else if q < q' {
      MulAtLeast(q' - q, r);
      assert false;
    }
  }

  /** Counting one more call: the count wraps at `r`, and the block number grows
      by one exactly when it does. */
  lemma DivModNext(i: nat, r: nat)
    requires r > 0
    ensures i % r == r - 1 ==> (i + 1) / r == i / r + 1 && (i + 1) % r == 0
    ensures i % r < r - 1 ==> (i + 1) / r == i / r && (i + 1) % r == i % r + 1
  {
    var q, m := i / r, i % r;
    if m == r - 1 {
      DivModUnique(i + 1, r, q + 1, 0);
    } else {
      DivModUnique(i + 1, r, q, m + 1);
    }
  }

  lemma ModNext(x: nat, n: nat)
    requires n > 0
    ensures (x % n + 1) % n == (x + 1) % n
    ensures (x + n) % n == x % n
  {
    DivModUnique(x + n, n, x / n + 1, x % n);
    if x % n == n - 1 {
      DivModUnique(x + 1, n, x / n + 1, 0);
      DivModUnique(x % n + 1, n, 1, 0);
    } else {
      DivModUnique(x + 1, n, x / n, x % n + 1);
      DivModUnique(x % n + 1, n, 0, x % n + 1);
    }
  }

  /** One call from the closed-form state after `k` calls hands out position
      `(k / R + n - 1) % n` and moves to the closed-form state after `k + 1`. */
  lemma {:induction false} FreshStep(n: nat, r: nat, k: nat)
    requires n > 0 && r > 0
    ensures Sane(FreshAfter(n, r, k))
    ensures Next(FreshAfter(n, r, k), n, r).state == FreshAfter(n, r, k + 1)
    ensures Next(FreshAfter(n, r, k), n, r).pos == Some((k / r + n - 1) % n)
  {
    var s := FreshAfter(n, r, k);
    if k == 0 {
      assert (0 / r + n - 1) % n == n - 1;
      assert 0 / r == 0 && 0 % r == 0;
    } else {
      var i := k - 1;
      var b := i / r;
      DivModNext(i, r);
      ModNext(if b == 0 then 0 else b - 1, n);
      if i % r == r - 1 {
        assert k / r == b + 1;
        ModNext(b, n);
        if b == 0 {
          assert (0 + 1) % n == 1 % n;
        }
      } else {
        assert k / r == b;
        if b == 0 {
          assert (n - 1) % n == n - 1;
        } else {
          assert b + n - 1 == (b - 1) + n;
        }
      }
    }
  }

  /** From freshly loaded counters, the `k` calls follow the closed form. */
  lemma {:induction false} FreshRun(n: nat, r: nat, k: nat)
    requires n > 0 && r > 0
    ensures Run(Fresh, n, r, k).0 == FreshAfter(n, r, k)
    ensures forall j | 0 <= j < k :: Run(Fresh, n, r, k).1[j] == (j / r + n - 1) % n
    decreases k
  {
    if k > 0 {
      FreshRun(n, r, k - 1);
      FreshStep(n, r, k - 1);
    }
  }

  /** The schedule after loading with R >= 1: the last credential R times, then
      `credentials[0]` R times, then `credentials[1]`, and so on round the list. */
  lemma Schedule(n: nat, r: nat, k: nat, j: nat)
    requires n > 0 && r > 0 && j < k
    ensures Run(Fresh, n, r, k).1[j] == (j / r + n - 1) % n
    ensures j < r ==> Run(Fresh, n, r, k).1[j] == n - 1
  {
    FreshRun(n, r, k);
    if j < r {
      DivModUnique(j, r, 0, j);
      assert (n - 1) % n == n - 1;
    }
  }

  /** Two credentials A and B, R = 2: five calls hand out B, B, A, A, B. */
  lemma TwoByTwo()
    ensures Run(Fresh, 2, 2, 5).1 == [1, 1, 0, 0, 1]
  {
    assert Next(Fresh, 2, 2) == Pick(Rotation(-1, 1), Some(1));
    assert Next(Rotation(-1, 1), 2, 2) == Pick(Rotation(-1, 2), Some(1));
    assert Next(Rotation(-1, 2), 2, 2) == Pick(Rotation(0, 1), Some(0));
    assert Next(Rotation(0, 1), 2, 2) == Pick(Rotation(0, 2), Some(0));
    assert Next(Rotation(0, 2), 2, 2) == Pick(Rotation(1, 1), Some(1));
    assert Run(Fresh, 2, 2, 0) == (Fresh, []);
    assert Run(Fresh, 2, 2, 1).0 == Rotation(-1, 1) && Run(Fresh, 2, 2, 1).1 == [1];
    assert Run(Fresh, 2, 2, 2).0 == Rotation(-1, 2) && Run(Fresh, 2, 2, 2).1 == [1, 1];
    assert Run(Fresh, 2, 2, 3).0 == Rotation(0, 1) && Run(Fresh, 2, 2, 3).1 == [1, 1, 0];
    assert Run(Fresh, 2, 2, 4).0 == Rotation(0, 2) && Run(Fresh, 2, 2, 4).1 == [1, 1, 0, 0];
  }

  /** With R <= 0 every call rotates, so with two or more credentials no two
      successive calls hand out the same one. */
  lemma AlwaysRotates(s: Rotation, n: nat, r: int)
    requires Sane(s) && n > 0 && r <= 0
    ensures Next(s, n, r).state.usage == 1
    ensures Next(s, n, r).pos == Some(Next(s, n, r).state.index)
    ensures n >= 2 ==> Next(Next(s, n, r).state, n, r).pos != Next(s, n, r).pos
  {
    var p := Next(s, n, r);
    var x := p.state.index;
    assert 0 <= x < n;
    var q := Next(p.state, n, r);
    if x + 1 < n {
      DivModUnique(x + 1, n, 0, x + 1);
    } else {
      DivModUnique(x + 1, n, 1, 0);
    }
  }

  // ----- adding a credential -----

  /** The file name `add_credential` writes: the given one, or
      `codebuddy_token_{n+1}.json` when none (or an empty one) is given, with
      ".json" appended when it does not end that way. */
  function FileNameFor(n: nat, given: Option<string>): (f: string)
    ensures EndsWith(f, ".json")
    ensures (given.None? || given.value == "") ==> f == "codebuddy_token_" + NatToString(n + 1) + ".json"
    ensures given.Some? && given.value != "" ==>
              StartsWith(f, given.value) && (f == given.value <==> EndsWith(given.value, ".json"))
  {
    var name := if given.None? || given.value == "" then "codebuddy_token_" + NatToString(n + 1) + ".json"
                else given.value;
    var f := if EndsWith(name, ".json") then name else name + ".json";
    assert f[|f| - 5..] == ".json";
    assert f[..|name|] == name;
    f
  }

  /** The default name is the numbered one glob picks up again. */
  lemma DefaultNameGlobbed(n: nat)
    ensures Globbed(FileNameFor(n, None))
    ensures '/' !in FileNameFor(n, None)
  {
    var d := NatToString(n + 1);
    var f := "codebuddy_token_" + d + ".json";
    assert f[0] == 'c';
    forall i | 0 <= i < |f| ensures f[i] != '/' {
      if i < 16 {
        assert f[i] == "codebuddy_token_"[i];
      } else if i < 16 + |d| {
        assert f[i] == d[i - 16];
      } else {
        assert f[i] == ".json"[i - 16 - |d|];
      }
    }
  }

  /** The record written to the new file. */
  function Record(token: string, userId: Option<string>, now: int): (v: Value)
    ensures v.Obj? && Keys(v.fields) == ["bearer_token", "user_id", "created_at"]
    ensures Lookup(v.fields, "bearer_token") == Some(Str(token))
    ensures Lookup(v.fields, "created_at") == Some(Num(now))
    ensures Lookup(v.fields, "user_id") == Some(if userId.Some? then Str(userId.value) else Null)
  {
    var v := Obj([("bearer_token", Str(token)),
                  ("user_id", if userId.Some? then Str(userId.value) else Null),
                  ("created_at", Num(now))]);
    assert Keys(v.fields) == ["bearer_token", "user_id", "created_at"];
    assert v.fields[1..][1..] == [("created_at", Num(now))];
    assert Lookup(v.fields[1..][1..], "created_at") == Some(Num(now));
    assert Lookup(v.fields[1..], "created_at") == Some(Num(now));
    v
  }

  /** When the reload sees the written file, parsed back to the record, under a
      name glob matches, the new credential is among those loaded. */
  lemma AddedIsLoaded(dir: string, es: seq<Entry>, name: string, token: string, userId: Option<string>, now: int)
    requires Entry(name, Some(Record(token, userId, now))) in es
    requires Globbed(name)
    ensures Credential(PathJoin(dir, name), Record(token, userId, now)) in Kept(dir, es)
  {
    var e := Entry(name, Some(Record(token, userId, now)));
    assert HasKey(Record(token, userId, now).fields, "bearer_token");
    assert Keeps(e);
    KeptMembers(dir, es);
  }

  // ----- the manager -----

  class CodeBuddyTokenManager {
    const credsDir: string
    var credentials: seq<Credential>
    var currentIndex: int
    var usageCount: int

    predicate Valid()
      reads this
    {
      Sane(Rotation(currentIndex, usageCount))
    }

    function State(): Rotation
      reads this
    {
      Rotation(currentIndex, usageCount)
    }

    /** Starts at index 0 with no uses, then loads (which sets the index to -1). */
    constructor (credsDir: string, d: Dir)
      ensures Valid()
      ensures this.credsDir == credsDir
      ensures credentials == Loaded(credsDir, d) && State() == Fresh
    {
      this.credsDir := credsDir;
      credentials := [];
      currentIndex := 0;
      usageCount := 0;
      new;
      LoadAllTokens(d);
    }

    /** `load_all_tokens`: the credentials become those of the listing; the index
        goes to -1 and the usage count is left as it was. */
    method LoadAllTokens(d: Dir)
      modifies this
      ensures credentials == Loaded(credsDir, d)
      ensures currentIndex == -1 && usageCount == old(usageCount)
    {
      credentials := [];
      currentIndex := -1;
      if d.Missing? {
        return;
      }
      var es := d.entries;
      for i := 0 to |es|
        invariant credentials == Kept(credsDir, es[..i])
        invariant currentIndex == -1 && usageCount == old(usageCount)
      {
        var e := es[i];
        assert es[..i + 1][..i] == es[..i] && es[..i + 1][i] == e;
        if Globbed(e.name) && e.parsed.Some? {
          var found := In("bearer_token", e.parsed.value);
          if found == Success(true) {
            credentials := credentials + [Credential(PathJoin(credsDir, e.name), e.parsed.value)];
          }
        }
      }
      assert es[..|es|] == es;
    }

    /** `get_next_credential` with rotation count `r`: hands out the credential at
        the position `Next` picks, records one use of its file's basename, and
        leaves the credential list alone. */
    method GetNextCredential(r: int, stats: UsageStatsManager) returns (cred: Option<Value>)
      requires Valid()
      modifies this, stats
      ensures Valid() && credentials == old(credentials)
      ensures State() == Next(old(State()), |credentials|, r).state
      ensures cred.None? <==> credentials == []
      ensures cred.Some? ==>
                var k := Next(old(State()), |credentials|, r).pos.value;
                cred == Some(credentials[k].data) &&
                stats.credentialUsage == Bump(old(stats.credentialUsage), Basename(credentials[k].filePath))
      ensures cred.None? ==> stats.credentialUsage == old(stats.credentialUsage)
      ensures stats.modelUsage == old(stats.modelUsage)
    {
      var n := |credentials|;
      if n == 0 {
        return None;
      }
      if currentIndex >= n {
        currentIndex := 0;
        usageCount := 0;
      }
      if usageCount >= r {
        currentIndex := (currentIndex + 1) % n;
        usageCount := 0;
      }
      var credential := credentials[PyIndex(currentIndex, n)];
      usageCount := usageCount + 1;
      stats.RecordCredentialUsage(Basename(credential.filePath));
      cred := Some(credential.data);
    }

    /** `get_all_credentials`: the records, in order. */
    function GetAllCredentials(): (r: seq<Value>)
      reads this
      ensures |r| == |credentials|
      ensures forall i | 0 <= i < |r| :: r[i] == credentials[i].data
    {
      seq(|credentials|, i reads this requires 0 <= i < |credentials| => credentials[i].data)
    }

    /** `add_credential`. The file system is a parameter: `written` says whether
        the write succeeds and `after` is the listing the reload then sees. The
        method returns the file it writes (`path`, `record`) besides the flag. */
    method AddCredential(token: string, userId: Option<string>, filename: Option<string>,
                         now: int, written: bool, after: Dir)
      returns (ok: bool, path: string, record: Value)
      modifies this
      ensures path == PathJoin(credsDir, FileNameFor(|old(credentials)|, filename))
      ensures record == Record(token, userId, now)
      ensures ok == written
      ensures ok ==> credentials == Loaded(credsDir, after) && currentIndex == -1 && usageCount == old(usageCount)
      ensures !ok ==> credentials == old(credentials) && State() == old(State())
    {
      var name := if filename.None? || filename.value == "" then "codebuddy_token_" + NatToString(|credentials| + 1) + ".json"
                  else filename.value;
      if !EndsWith(name, ".json") {
        name := name + ".json";
      }
      path := PathJoin(credsDir, name);
      record := Obj([("bearer_token", Str(token)),
                     ("user_id", if userId.Some? then Str(userId.value) else Null),
                     ("created_at", Num(now))]);
      if !written {
        return false, path, record;
      }
      LoadAllTokens(after);
      ok := true;
    }
  }
}
