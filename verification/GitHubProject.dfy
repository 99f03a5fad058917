/**
 Setting up a GitHub project for Pipelines-as-Code: a repository, a webhook Secret and a Repository CR,
 with a deferred rollback that runs unless the setup completed.
 */
module GitHubProject {
  import opened Wrappers

  type Repo = (string, string)
  type Data = map<string, string>

  /** How the webhook Secret is put back. */
  datatype SecretRollback = PutBack(original: Data) | Delete

  /** What an API call that changes something reports, and whether the change took effect. */
  datatype Outcome = Outcome(confirmed: bool, effective: bool)

  // ---- Names ----

  /** strings.ToLower as far as the result can be a letter of the Latin alphabet. */
  function Lower(c: char): char {
    if 'A' <= c <= 'Z' then c - 'A' + 'a'
    else if c == '\U{212A}' then 'k'
    else if c == '\U{0130}' then 'i'
    else c
  }

  predicate IsNameChar(c: char) {
    'a' <= c <= 'z' || '0' <= c <= '9' || c == '-'
  }

  function CleanChar(c: char): char {
    if IsNameChar(Lower(c)) then Lower(c) else '-'
  }

  function Clean(s: string): string {
    seq(|s|, i requires 0 <= i < |s| => CleanChar(s[i]))
  }

  function TrimLeft(s: string): string {
    if s != "" && s[0] == '-' then TrimLeft(s[1..]) else s
  }

  function TrimRight(s: string): string {
    if s != "" && s[|s| - 1] == '-' then TrimRight(s[..|s| - 1]) else s
  }

  function Trim(s: string): string {
    TrimRight(TrimLeft(s))
  }

  function Sanitize(s: string): string {
    var res := Trim(Clean(s));
    if res == "" then "pac-repo" else if |res| > 63 then res[..63] else res
  }

  method SanitizeName(s: string) returns (name: string)
    ensures name == Sanitize(s)
  {
    var out := "";
    for i := 0 to |s|
      invariant out == Clean(s[..i])
    {
      var c := Lower(s[i]);
      if ('a' <= c <= 'z') || ('0' <= c <= '9') || c == '-' {
        out := out + [c];
      } else {
        out := out + ['-'];
      }
    }
    assert s[..|s|] == s;
    var res := Trim(out);
    if res == "" {
      return "pac-repo";
    }
    if |res| > 63 {
      return res[..63];
    }
    return res;
  }

  predicate NameChars(s: string) {
    forall i | 0 <= i < |s| :: IsNameChar(s[i])
  }

  lemma {:induction false} TrimLeftParts(s: string)
    ensures |TrimLeft(s)| <= |s| && TrimLeft(s) == s[|s| - |TrimLeft(s)|..]
    ensures TrimLeft(s) != "" ==> TrimLeft(s)[0] != '-'
    ensures forall i | 0 <= i < |s| - |TrimLeft(s)| :: s[i] == '-'
  {
    if s != "" && s[0] == '-' {
      var rest := s[1..];
      TrimLeftParts(rest);
      assert TrimLeft(s) == TrimLeft(rest);
      hide TrimLeft;
      assert forall i | 0 < i < |s| :: s[i] == rest[i - 1];
      assert s[|s| - |TrimLeft(s)|..] == rest[|rest| - |TrimLeft(rest)|..];
    }
  }

  lemma {:induction false} TrimRightParts(s: string)
    ensures |TrimRight(s)| <= |s| && TrimRight(s) == s[..|TrimRight(s)|]
    ensures TrimRight(s) != "" ==> TrimRight(s)[|TrimRight(s)| - 1] != '-'
    ensures forall i | |TrimRight(s)| <= i < |s| :: s[i] == '-'
  {
    if s != "" && s[|s| - 1] == '-' {
      TrimRightParts(s[..|s| - 1]);
    }
  }

  lemma NameSlice(s: string, i: nat, j: nat)
    requires NameChars(s) && i <= j <= |s|
    ensures NameChars(s[i..j])
  {
  }

  lemma DefaultName()
    ensures NameChars("pac-repo")
  {
  }

  /** Every name is one to 63 characters a Kubernetes name may have, and starts with no dash. */
  lemma SanitizedIsValid(s: string)
    ensures 0 < |Sanitize(s)| <= 63 && NameChars(Sanitize(s)) && Sanitize(s)[0] != '-'
  {
    var clean := Clean(s);
    assert NameChars(clean);
    hide Clean, IsNameChar, TrimLeft, TrimRight;
    var left := TrimLeft(clean);
    TrimLeftParts(clean);
    TrimRightParts(left);
    NameSlice(clean, |clean| - |left|, |clean|);
    assert clean[|clean| - |left|..|clean|] == left;
    NameSlice(left, 0, |Trim(clean)|);
    assert left[0..|Trim(clean)|] == Trim(clean);
    if |Trim(clean)| > 63 {
      NameSlice(Trim(clean), 0, 63);
      assert Trim(clean)[0..63] == Trim(clean)[..63];
    }
    DefaultName();
  }

  predicate IsASCIIWord(c: char) {
    'a' <= c <= 'z' || 'A' <= c <= 'Z' || '0' <= c <= '9'
  }

  /** Letters become small, digits and dashes stay, and everything else becomes a dash but for two letters. */
  lemma EachCharacter(c: char)
    ensures 'a' <= c <= 'z' || '0' <= c <= '9' || c == '-' ==> CleanChar(c) == c
    ensures 'A' <= c <= 'Z' ==> CleanChar(c) as int == c as int + 32
    ensures !IsASCIIWord(c) && c != '\U{212A}' && c != '\U{0130}' ==> CleanChar(c) == '-'
    ensures CleanChar('\U{212A}') == 'k' && CleanChar('\U{0130}') == 'i'
  {
  }

  /** A word of letters, digits and inner dashes keeps them all, in small letters. */
  lemma NameIsKept(s: string, i: nat)
    requires 0 < |s| <= 63 && s[0] != '-' && s[|s| - 1] != '-' && i < |s|
    requires forall k | 0 <= k < |s| :: IsASCIIWord(s[k]) || s[k] == '-'
    ensures |Sanitize(s)| == |s|
    ensures Sanitize(s)[i] as int == if 'A' <= s[i] <= 'Z' then s[i] as int + 32 else s[i] as int
  {
    EachCharacter(s[0]);
    EachCharacter(s[|s| - 1]);
    EachCharacter(s[i]);
    hide CleanChar;
    TrimIsIdentity(Clean(s));
  }

  lemma CleanIsIdentity(s: string)
    requires NameChars(s)
    ensures Clean(s) == s
  {
    assert forall i | 0 <= i < |s| :: CleanChar(s[i]) == s[i];
  }

  lemma TrimIsIdentity(s: string)
    requires s != "" && s[0] != '-' && s[|s| - 1] != '-'
    ensures Trim(s) == s
  {
  }

  /** A name of a Kubernetes object that has to be a DNS label. */
  predicate IsDNSLabel(s: string) {
    0 < |s| <= 63 && NameChars(s) && s[0] != '-' && s[|s| - 1] != '-'
  }

  /** The cleaned and trimmed text is not cut at 63 characters right behind a dash. */
  predicate CutsWell(s: string) {
    |Trim(Clean(s))| <= 63 || Trim(Clean(s))[62] != '-'
  }

  /** The result is a DNS label, and sanitizing it again changes nothing, exactly under this condition on the input. */
  lemma SanitizeTwiceIff(s: string)
    ensures IsDNSLabel(Sanitize(s)) <==> CutsWell(s)
    ensures Sanitize(Sanitize(s)) == Sanitize(s) <==> CutsWell(s)
  {
    var name := Sanitize(s);
    SanitizedIsValid(s);
    LastOfName(s);
    hide CutsWell, Clean, IsNameChar;
    CleanIsIdentity(name);
    if name[|name| - 1] != '-' {
      TrimIsIdentity(name);
    } else {
      TrimRightParts(TrimLeft(name));
      assert TrimLeft(name) == name;
    }
  }

  lemma LastOfName(s: string)
    ensures Sanitize(s) != "" && (Sanitize(s)[|Sanitize(s)| - 1] != '-' <==> CutsWell(s))
  {
    hide Clean, TrimLeft, TrimRight;
    TrimRightParts(TrimLeft(Clean(s)));
  }

  /** Such a cut happens: 62 letters, a dash and one more letter. */
  lemma CutEndsInDash()
    ensures
      var s := seq(62, _ => 'a') + "-b";
      Sanitize(s)[62] == '-' && !IsDNSLabel(Sanitize(s)) && Sanitize(Sanitize(s)) != Sanitize(s)
  {
    var s := seq(62, _ => 'a') + "-b";
    assert NameChars(s);
    CleanIsIdentity(s);
    TrimIsIdentity(s);
    SanitizeTwiceIff(s);
  }

  // ---- Setup with deferred rollback ----

  /** What the setup is given; `account` is the login of the token's user. */
  datatype Request = Request(org: string, account: string, repo: string, token: string, webhookSecret: string)

  datatype Project = Project(owner: string, repo: string)

  /** What every call of the setup does, in order; the last three belong to the rollback. */
  datatype Outcomes = Outcomes(
    create: Outcome, ownerReported: bool, userReadable: bool, ready: bool, secretReadable: bool, secret: Outcome,
    cr: Outcome, hooked: bool, crDeleted: bool, secretPutBack: bool, repoDeleted: bool)

  /** GitHub's repositories, and the Secret and Repository CRs of one namespace. */
  datatype World = World(repos: set<Repo>, secret: Option<Data>, crs: map<string, string>)

  function Wanted(r: Request): Data {
    map["provider.token" := r.token, "webhook.secret" := r.webhookSecret]
  }

  /** The account the repository is created in. */
  function TrueOwner(r: Request): string {
    if r.org != "" then r.org else r.account
  }

  function Home(r: Request): Repo {
    (TrueOwner(r), r.repo)
  }

  function Updated(secret: Option<Data>, r: Request): Data {
    (if secret.Some? then secret.value else map[]) + Wanted(r)
  }

  /** The token and the webhook secret under their keys, and everything else as it was. */
  predicate Carries(data: Data, before: Option<Data>, r: Request) {
    && "provider.token" in data && data["provider.token"] == r.token
    && "webhook.secret" in data && data["webhook.secret"] == r.webhookSecret
    && (before.Some? ==> forall k | k in before.value && k != "provider.token" && k != "webhook.secret" ::
                           k in data && data[k] == before.value[k])
    && (forall k | k in data && k != "provider.token" && k != "webhook.secret" ::
          before.Some? && k in before.value)
  }

  lemma UpdatedCarries(secret: Option<Data>, r: Request)
    ensures Carries(Updated(secret, r), secret, r)
  {
    assert "provider.token"[0] != "webhook.secret"[0];
  }

  // ---- What the outcomes decide ----

  predicate Created(w: World, r: Request, o: Outcomes) {
    Home(r) !in w.repos && o.create.confirmed
  }

  /** A create that reports an error ends the setup before there is a rollback, whether or not it took effect. */
  function Leaked(w: World, r: Request, o: Outcomes): set<Repo> {
    if Home(r) !in w.repos && !o.create.confirmed && o.create.effective then {Home(r)} else {}
  }

  predicate OwnerKnown(r: Request, o: Outcomes) {
    r.org != "" || o.ownerReported || o.userReadable
  }

  predicate RollbackWorks(o: Outcomes) {
    o.crDeleted && o.secretPutBack && o.repoDeleted
  }

  predicate SecretConfirmed(o: Outcomes) {
    o.ready && o.secretReadable && o.secret.confirmed
  }

  predicate Completes(w: World, r: Request, o: Outcomes) {
    && Created(w, r, o) && OwnerKnown(r, o) && SecretConfirmed(o)
    && Sanitize(r.repo) !in w.crs && o.cr.confirmed && o.hooked
  }

  /** The Secret was changed by a call that reported an error, so nothing undoes it. */
  predicate SecretStrays(w: World, r: Request, o: Outcomes) {
    o.ready && o.secretReadable && !o.secret.confirmed && o.secret.effective && w.secret != Some(Updated(w.secret, r))
  }

  /** The CR was created by a call that reported an error. */
  predicate CRStrays(w: World, r: Request, o: Outcomes) {
    SecretConfirmed(o) && Sanitize(r.repo) !in w.crs && !o.cr.confirmed && o.cr.effective
  }

  class Service {
    var repos: set<Repo>
    var secret: Option<Data>
    var crs: map<string, string>
    // The Smee deployments beside them.
    var deployments: set<string>

    function Now(): World
      reads this
    {
      World(repos, secret, crs)
    }

    /** Updates or creates the Secret, and says how to undo that. An error returns no way to undo it. */
    method EnsureWebhookSecret(r: Request, readable: bool, call: Outcome) returns (undo: Option<SecretRollback>)
      modifies this`secret
      ensures undo.Some? <==> readable && call.confirmed
      ensures undo.Some? ==> undo.value == if old(secret).Some? then PutBack(old(secret).value) else Delete
      ensures secret == if readable && (call.confirmed ||
                call.effective) then Some(Updated(old(secret), r)) else old(secret)
      ensures secret != old(secret) ==> secret.Some? && Carries(secret.value, old(secret), r)
    {
      if !readable {
        return None;
      }
      undo := if secret.Some? then Some(PutBack(secret.value)) else Some(Delete);
      UpdatedCarries(secret, r);
      if call.confirmed || call.effective {
        secret := Some((if secret.Some? then secret.value else map[]) + Wanted(r));
      }
      if !call.confirmed {
        undo := None;
      }
    }

    method UndoSecret(undo: SecretRollback, works: bool)
      modifies this`secret
      ensures secret == if !works then old(secret) else if undo.PutBack? then Some(undo.original) else None
    {
      if works {
        secret := if undo.PutBack? then Some(undo.original) else None;
      }
    }

    /** Creates the CR; a name that is taken is an error and leaves the other CR alone. */
    method CreateRepositoryCR(name: string, url: string, call: Outcome) returns (ok: bool)
      modifies this`crs
      ensures ok <==> name !in old(crs) && call.confirmed
      ensures crs == if name !in old(crs) && (call.confirmed || call.effective) then old(crs)[name := url] else old(crs)
    {
      if name in crs {
        return false;
      }
      if call.confirmed || call.effective {
        crs := crs[name := url];
      }
      ok := call.confirmed;
    }

    method DeleteRepositoryCR(repo: string, works: bool) returns (ok: bool)
      modifies this`crs
      ensures crs == if repo != "" && works then old(crs) - {Sanitize(repo)} else old(crs)
      ensures ok <==> repo == "" || works
    {
      if repo == "" {
        return true;
      }
      if works {
        crs := crs - {Sanitize(repo)};
      }
      ok := works;
    }

    method DeleteRepo(repo: Repo, works: bool)
      modifies this`repos
      ensures repos == if works then old(repos) - {repo} else old(repos)
    {
      if works {
        repos := repos - {repo};
      }
    }

    /** The deferred block: undoes, last first, what is known to have been done. */
    method Rollback(crCreated: bool, undo: Option<SecretRollback>, owner: string, repo: string, o: Outcomes)
      modifies this`repos, this`secret, this`crs
      ensures crs == if crCreated && repo != "" && o.crDeleted then old(crs) - {Sanitize(repo)} else old(crs)
      ensures secret == if undo.None? || !o.secretPutBack then old(secret)
                        else if undo.value.PutBack? then Some(undo.value.original) else None
      ensures repos == if owner != "" && o.repoDeleted then old(repos) - {(owner, repo)} else old(repos)
    {
      if crCreated {
        var ok := DeleteRepositoryCR(repo, o.crDeleted);
      }
      if undo.Some? {
        UndoSecret(undo.value, o.secretPutBack);
      }
      if owner != "" {
        DeleteRepo((owner, repo), o.repoDeleted);
      }
    }
  }

  /** The state a failed setup leaves when its rollback works: only what strayed is left behind. */
  function Residue(w: World, r: Request, url: string, o: Outcomes): World {
    World(w.repos, if SecretStrays(w, r, o) then Some(Updated(w.secret, r)) else w.secret,
          if CRStrays(w, r, o) then w.crs[Sanitize(r.repo) := url] else w.crs)
  }

  /**
   Runs the whole setup, with `url` the repository's address. It succeeds exactly when every call it needs
   does, and then nothing is rolled back. If it fails once the repository is created, its owner is known
   and the rollback works, then only what a call changed that reported an error is left behind. Whatever
   fails, no other CR is touched.
   */
  method SetupGitHubProject(s: Service, r: Request, url: string, o: Outcomes) returns (project: Option<Project>)
    requires r.account != "" && r.repo != ""
    modifies s`repos, s`secret, s`crs
    ensures project.Some? <==> Completes(old(s.Now()), r, o)
    ensures project.Some? ==>
      && project.value == Project(TrueOwner(r), r.repo)
      && s.Now() == World(old(s.repos) +
          {Home(r)}, Some(Updated(old(s.secret), r)), old(s.crs)[Sanitize(r.repo) := url])
    ensures project.None? && Created(old(s.Now()), r, o) && OwnerKnown(r, o) && RollbackWorks(o) ==>
      s.Now() == Residue(old(s.Now()), r, url, o)
    ensures Created(old(s.Now()), r, o) && !OwnerKnown(r, o) ==>
      s.Now() == old(s.Now()).(repos := old(s.repos) + {Home(r)})
    ensures !Created(old(s.Now()), r, o) ==>
      s.Now() == old(s.Now()).(repos := old(s.repos) + Leaked(old(s.Now()), r, o))
    ensures forall k | k in old(s.crs) :: k in s.crs && s.crs[k] == old(s.crs)[k]
  {
    hide Sanitize, Carries;
    var home := Home(r);
    if home in s.repos {
      return None;
    }
    if o.create.confirmed || o.create.effective {
      s.repos := s.repos + {home};
    }
    if !o.create.confirmed {
      return None;
    }
    var owner := if r.org != "" then r.org else if o.ownerReported then r.account else "";
    if owner == "" {
      if !o.userReadable {
        s.Rollback(false, None, owner, r.repo, o);
        return None;
      }
      owner := r.account;
    }
    assert (owner, r.repo) == home && old(s.repos) + {home} - {home} == old(s.repos);
    if !o.ready {
      s.Rollback(false, None, owner, r.repo, o);
      return None;
    }
    var undo := s.EnsureWebhookSecret(r, o.secretReadable, o.secret);
    if undo.None? {
      s.Rollback(false, None, owner, r.repo, o);
      return None;
    }
    var made := s.CreateRepositoryCR(Sanitize(r.repo), url, o.cr);
    if !made {
      s.Rollback(false, undo, owner, r.repo, o);
      return None;
    }
    if !o.hooked {
      s.Rollback(true, undo, owner, r.repo, o);
      assert old(s.crs)[Sanitize(r.repo) := url] - {Sanitize(r.repo)} == old(s.crs);
      return None;
    }
    project := Some(Project(owner, r.repo));
  }

  /** What a completed setup leaves: the repository of the organization or of the user, the Secret and the CR. */
  lemma CompletedMeans(w: World, r: Request, url: string)
    ensures
      var owner := if r.org != "" then r.org else r.account;
      var after := World(w.repos + {Home(r)}, Some(Updated(w.secret, r)), w.crs[Sanitize(r.repo) := url]);
      && TrueOwner(r) == owner && after.repos == w.repos + {(owner, r.repo)}
      && Carries(after.secret.value, w.secret, r) && after.crs == w.crs[Sanitize(r.repo) := url]
  {
    hide Carries, Sanitize;
    UpdatedCarries(w.secret, r);
  }

  /**
   So a failed setup with a working rollback leaves everything as it was exactly when neither the Secret call
   nor the CR call changed something and reported an error.
   */
  lemma RestoredIff(w: World, r: Request, url: string, o: Outcomes)
    ensures Residue(w, r, url, o) == w <==> !SecretStrays(w, r, o) && !CRStrays(w, r, o)
  {
    hide Sanitize;
    var name := Sanitize(r.repo);
    assert name !in w.crs ==> name in w.crs[name := url];
  }

  /** Such a run: the Secret did not exist, its creation reported an error and yet took effect. */
  lemma LostAnswerLeavesSecret(w: World, r: Request, url: string)
    requires w.secret == None && Home(r) !in w.repos
    ensures
      var works := Outcome(true, true);
      var o := Outcomes(works, true, true, true, true, Outcome(false, true), works, true, true, true, true);
      && Created(w, r, o) && OwnerKnown(r, o) && RollbackWorks(o) && !Completes(w, r, o)
      && Residue(w, r, url, o) == w.(secret := Some(Updated(None, r))) != w
  {
    hide Sanitize;
  }

  /** And one that leaks the repository: its creation reported an error and yet took effect. */
  lemma LostAnswerLeavesRepo(w: World, r: Request)
    requires Home(r) !in w.repos
    ensures
      var works := Outcome(true, true);
      var o := Outcomes(Outcome(false, true), true, true, true, true, works, works, true, true, true, true);
      !Created(w, r, o) && Leaked(w, r, o) == {Home(r)}
  {
  }

  /** The later cleanup deletes the very CR that the setup created, the Secret, the repository and the deployment. */
  method CleanupProject(s: Service, smee: string, project: Project, o: Outcomes, smeeDeleted: bool) returns (ok: bool)
    modifies s
    ensures s.crs == if project.repo != "" && o.crDeleted then old(s.crs) - {Sanitize(project.repo)} else old(s.crs)
    ensures s.secret == if o.secretPutBack then None else old(s.secret)
    ensures s.repos == if project.owner != "" && project.repo != "" && o.repoDeleted
                       then old(s.repos) - {(project.owner, project.repo)} else old(s.repos)
    ensures s.deployments == if smeeDeleted then old(s.deployments) - {smee} else old(s.deployments)
    ensures ok <==> (project.repo == "" || o.crDeleted) && o.secretPutBack && smeeDeleted &&
                    (project.owner == "" || project.repo == "" || o.repoDeleted)
  {
    hide Sanitize;
    ok := s.DeleteRepositoryCR(project.repo, o.crDeleted);
    s.UndoSecret(Delete, o.secretPutBack);
    ok := ok && o.secretPutBack;
    if project.owner != "" && project.repo != "" {
      s.DeleteRepo((project.owner, project.repo), o.repoDeleted);
      ok := ok && o.repoDeleted;
    }
    if smeeDeleted {
      s.deployments := s.deployments - {smee};
    }
    ok := ok && smeeDeleted;
  }

  /** Setting up and cleaning up leaves the repositories and CRs as they were; the Secret is gone either way. */
  method SetupThenCleanup(s: Service, r: Request, url: string, o: Outcomes, smee: string)
    returns (project: Option<Project>, ok: bool)
    requires r.account != "" && r.repo != ""
    modifies s
    ensures project.Some? && ok ==> s.Now() == old(s.Now()).(secret := None)
  {
    hide Sanitize;
    ok := true;
    project := SetupGitHubProject(s, r, url, o);
    if project.Some? {
      ok := CleanupProject(s, smee, project.value, o, true);
      assert old(s.crs)[Sanitize(r.repo) := url] - {Sanitize(r.repo)} == old(s.crs);
      assert old(s.repos) + {Home(r)} - {Home(r)} == old(s.repos);
    }
  }
}
