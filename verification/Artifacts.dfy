/**
 The Lambda artifact gate: first-party files are staged over the vendored tree, the first-party set
 keeps each manifest entry as it is spelled, staging writes to the path it names, and the archive
 prints that path. The scans tell first-party entries by comparing the two texts.
 */
module Artifacts {
  import opened Text
  import opened Paths

  datatype File = File(path: Path, data: Bytes)

  /** A checkout: its files in the order a sorted walk yields them, and its directories. */
  datatype Repository = Repository(files: seq<File>, directories: set<Path>)

  type Tree = map<Path, Bytes>

  const FIXTURES := "demo/fixtures/"
  const FIXTURE_DATA := "chorus" + "/" + "infrastructure" + "/" + ("fixtures" + "/" + "data") + "/"

  function RemapArchivePath(relative: string): string {
    if StartsWith(relative, FIXTURES) then FIXTURE_DATA + relative[|FIXTURES|..]
    else if StartsWith(relative, "src/") then relative[4..]
    else if StartsWith(relative, "apps/api/") then relative[9..]
    else relative
  }

  predicate Bytecode(name: string) {
    EndsWith(name, ".pyc") || EndsWith(name, ".pyo") || "__pycache__" in Parts(name)
  }

  // ---------- Staging ----------

  predicate IsFile(repo: Repository, relative: string) { exists f :: f in repo.files && f.path == Parts(relative) }

  predicate IsDir(repo: Repository, relative: string) { Parts(relative) in repo.directories }

  predicate Declared(repo: Repository, relative: string) { IsFile(repo, relative) || IsDir(repo, relative) }

  /** A manifest entry names a file, or everything under a directory. */
  predicate Picks(repo: Repository, relative: string, f: File) {
    if IsFile(repo, relative) then f.path == Parts(relative) else IsDir(repo, relative) && Parts(relative) < f.path
  }

  /** A file entry goes by the entry's own text, a walked file by the path the walk prints. */
  function Spelling(repo: Repository, relative: string, f: File): string {
    RemapArchivePath(if IsFile(repo, relative) then relative else Posix(f.path))
  }

  /** What is copied of it: compiled bytecode found under a directory is passed over. */
  predicate Copies(repo: Repository, relative: string, f: File) {
    Picks(repo, relative, f) && (IsFile(repo, relative) || !Bytecode(Posix(f.path)))
  }

  /** An entry that stays inside the checkout, and inside the staging directory once remapped. */
  predicate Contained(repo: Repository, relative: string) {
    && !Absolute(relative) && ".." !in Parts(relative)
    && (IsFile(repo, relative) ==> !Absolute(RemapArchivePath(relative)) && Parts(RemapArchivePath(relative)) != [])
  }

  predicate AllContained(manifest: seq<string>, repo: Repository) {
    forall relative :: relative in manifest ==> Contained(repo, relative)
  }

  function FirstPartySet(manifest: seq<string>, repo: Repository): set<string> {
    set relative, f | relative in manifest && f in repo.files && Picks(repo, relative, f) :: Spelling(repo, relative, f)
  }

  method ArchiveFirstParty(manifest: seq<string>, repo: Repository) returns (found: set<string>)
    requires AllContained(manifest, repo)
    ensures found == FirstPartySet(manifest, repo)
  {
    hide Picks, Spelling, Contained;
    found := {};
    for i := 0 to |manifest|
      invariant found == FirstPartySet(manifest[..i], repo)
    {
      var relative := manifest[i];
      var before := found;
      for k := 0 to |repo.files|
        invariant found == before + set f | f in repo.files[..k] && Picks(repo, relative, f) :: Spelling(repo, relative, f)
      {
        if Picks(repo, relative, repo.files[k]) { found := found + {Spelling(repo, relative, repo.files[k])}; }
      }
      assert repo.files[..|repo.files|] == repo.files && manifest[..i + 1] == manifest[..i] + [relative];
    }
    assert manifest[..|manifest|] == manifest;
  }

  /** One copy made by staging: the text its destination is built from, and the bytes. */
  datatype Copy = Copy(spelling: string, data: Bytes)

  function Copied(repo: Repository, relative: string, files: seq<File>): seq<Copy> {
    if files == [] then []
    else
      var n := |files| - 1;
      Copied(repo, relative, files[..n]) +
      if Copies(repo, relative, files[n]) then [Copy(Spelling(repo, relative, files[n]), files[n].data)] else []
  }

  function AllCopied(manifest: seq<string>, repo: Repository): seq<Copy> {
    if manifest == [] then []
    else
      var n := |manifest| - 1;
      AllCopied(manifest[..n], repo) + Copied(repo, manifest[n], repo.files)
  }

  /** Copying over a tree, later copies over earlier ones; a destination is a path, however it was spelled. */
  function Overlay(copies: seq<Copy>, tree: Tree): Tree {
    if copies == [] then tree
    else
      var n := |copies| - 1;
      Overlay(copies[..n], tree)[Parts(copies[n].spelling) := copies[n].data]
  }

  lemma {:induction false} OverlayAppend(a: seq<Copy>, b: seq<Copy>, tree: Tree)
    ensures Overlay(a + b, tree) == Overlay(b, Overlay(a, tree))
  {
    if b == [] {
      assert a + b == a;
    } else {
      assert (a + b)[..|a + b| - 1] == a + b[..|b| - 1];
      OverlayAppend(a, b[..|b| - 1], tree);
    }
  }

  predicate AllDeclared(manifest: seq<string>, repo: Repository) {
    forall relative :: relative in manifest ==> Declared(repo, relative)
  }

  /** One more file of an entry, and one more entry, copied over what is there. */
  lemma CopyNext(repo: Repository, relative: string, k: nat, tree: Tree)
    requires k < |repo.files|
    ensures var f, staged := repo.files[k], Overlay(Copied(repo, relative, repo.files[..k]), tree);
            Overlay(Copied(repo, relative, repo.files[..k + 1]), tree) ==
            if Copies(repo, relative, f) then staged[Parts(Spelling(repo, relative, f)) := f.data] else staged
  {
    hide Copies, Spelling, Parts;
    assert repo.files[..k + 1][..k] == repo.files[..k];
    var before := Copied(repo, relative, repo.files[..k]);
    if Copies(repo, relative, repo.files[k]) {
      var copy := Copy(Spelling(repo, relative, repo.files[k]), repo.files[k].data);
      assert Copied(repo, relative, repo.files[..k + 1]) == before + [copy];
      assert (before + [copy])[..|before|] == before;
    } else {
      assert Copied(repo, relative, repo.files[..k + 1]) == before;
    }
  }

  lemma EntryNext(manifest: seq<string>, repo: Repository, i: nat, tree: Tree)
    requires i < |manifest|
    ensures Overlay(AllCopied(manifest[..i + 1], repo), tree) ==
            Overlay(Copied(repo, manifest[i], repo.files), Overlay(AllCopied(manifest[..i], repo), tree))
  {
    hide Copied, Overlay;
    assert manifest[..i + 1][..i] == manifest[..i];
    OverlayAppend(AllCopied(manifest[..i], repo), Copied(repo, manifest[i], repo.files), tree);
  }

  lemma NothingCopied(repo: Repository, relative: string, tree: Tree)
    ensures Overlay(AllCopied([], repo), tree) == Overlay(Copied(repo, relative, []), tree) == tree
  {
    assert AllCopied([], repo) == Copied(repo, relative, []) == [];
  }

  method StageFirstParty(manifest: seq<string>, repo: Repository, vendored: Tree) returns (r: Option<Tree>)
    requires AllContained(manifest, repo)
    ensures r == if AllDeclared(manifest, repo) then Some(Overlay(AllCopied(manifest, repo), vendored)) else None
  {
    hide Copies, Spelling, Declared, Contained, Parts, Overlay, AllCopied, Copied;
    var staging := vendored;
    NothingCopied(repo, "", vendored);
    for i := 0 to |manifest|
      invariant AllDeclared(manifest[..i], repo)
      invariant staging == Overlay(AllCopied(manifest[..i], repo), vendored)
    {
      var relative := manifest[i];
      if !Declared(repo, relative) { return None; }
      var before := staging;
      NothingCopied(repo, relative, before);
      for k := 0 to |repo.files|
        invariant staging == Overlay(Copied(repo, relative, repo.files[..k]), before)
      {
        CopyNext(repo, relative, k, before);
        if Copies(repo, relative, repo.files[k]) {
          staging := staging[Parts(Spelling(repo, relative, repo.files[k])) := repo.files[k].data];
        }
      }
      assert repo.files[..|repo.files|] == repo.files;
      EntryNext(manifest, repo, i, vendored);
    }
    assert manifest[..|manifest|] == manifest;
    r := Some(staging);
  }

  predicate CopyOf(repo: Repository, relative: string, f: File, c: Copy) {
    Copies(repo, relative, f) && c == Copy(Spelling(repo, relative, f), f.data)
  }

  lemma {:induction false} CopiedMembers(repo: Repository, relative: string, files: seq<File>, c: Copy)
    ensures c in Copied(repo, relative, files) <==> exists f :: f in files && CopyOf(repo, relative, f, c)
  {
    hide Copies, Spelling;
    if files != [] {
      var n := |files| - 1;
      CopiedMembers(repo, relative, files[..n], c);
      assert files == files[..n] + [files[n]];
      assert c in Copied(repo, relative, files) <==> c in Copied(repo, relative, files[..n]) || CopyOf(repo, relative, files[n], c);
    }
  }

  /** The copies are those of the files some entry picks. */
  lemma {:induction false} AllCopiedMembers(manifest: seq<string>, repo: Repository, c: Copy)
    ensures c in AllCopied(manifest, repo) <==>
            exists relative, f :: relative in manifest && f in repo.files && CopyOf(repo, relative, f, c)
  {
    hide CopyOf, Copied;
    if manifest != [] {
      var n := |manifest| - 1;
      AllCopiedMembers(manifest[..n], repo, c);
      CopiedMembers(repo, manifest[n], repo.files, c);
      assert manifest == manifest[..n] + [manifest[n]];
    }
  }

  lemma FixtureData()
    ensures FIXTURE_DATA == "chorus/infrastructure/fixtures/data/"
  {
    assert "chorus" + "/" + "infrastructure" + "/" == "chorus/infrastructure/";
    assert "fixtures" + "/" + "data" == "fixtures/data";
  }

  /** The three source roots that are stripped, and nothing else. */
  lemma RemapExactly(rest: string)
    ensures RemapArchivePath("demo/fixtures/" + rest) == "chorus/infrastructure/fixtures/data/" + rest
    ensures RemapArchivePath("src/" + rest) == rest && RemapArchivePath("apps/api/" + rest) == rest
    ensures !("demo/fixtures/" <= rest) && !("src/" <= rest) && !("apps/api/" <= rest) ==> RemapArchivePath(rest) == rest
  {
    assert ("src/" + rest)[..4] == "src/" && ("apps/api/" + rest)[..9] == "apps/api/";
    assert ("demo/fixtures/" + rest)[..14] == "demo/fixtures/" && ("demo/fixtures/" + rest)[14..] == rest;
    assert ("src/" + rest)[0] == 's' && ("apps/api/" + rest)[0] == 'a' && "demo/fixtures/"[0] == 'd';
    FixtureData();
  }

  /** A copy of this file for this entry: the file the entry names, or one below the directory it names. */
  predicate StagedFor(repo: Repository, r: string, f: File, c: Copy) {
    && c.data == f.data
    && (|| (f.path == Parts(r) && c.spelling == RemapArchivePath(r))
        || (&& (forall g :: g in repo.files ==> g.path != Parts(r)) && Parts(r) in repo.directories
            && Parts(r) < f.path && c.spelling == RemapArchivePath(Posix(f.path))
            && !EndsWith(Posix(f.path), ".pyc") && !EndsWith(Posix(f.path), ".pyo") && "__pycache__" !in Parts(Posix(f.path))))
  }

  /** What is copied, exactly. */
  lemma CopiesExactly(manifest: seq<string>, repo: Repository, c: Copy)
    ensures c in AllCopied(manifest, repo) <==>
            exists r, f :: r in manifest && f in repo.files && StagedFor(repo, r, f, c)
  {
    hide AllCopied, Posix, Parts, EndsWith, RemapArchivePath;
    AllCopiedMembers(manifest, repo, c);
    forall r, f | r in manifest && f in repo.files ensures CopyOf(repo, r, f, c) <==> StagedFor(repo, r, f, c) {
    }
  }

  /** Each entry of an overlaid tree is the last file copied to its path, or what was there. */
  lemma {:induction false} OverlayEntries(copies: seq<Copy>, tree: Tree, p: Path)
    ensures p in Overlay(copies, tree) <==> p in tree || exists c :: c in copies && Parts(c.spelling) == p
    ensures (exists c :: c in copies && Parts(c.spelling) == p) ==>
              exists c :: c in copies && Parts(c.spelling) == p && Overlay(copies, tree)[p] == c.data
    ensures p in tree && (forall c :: c in copies ==> Parts(c.spelling) != p) ==> Overlay(copies, tree)[p] == tree[p]
  {
    hide Parts;
    if copies != [] {
      var n := |copies| - 1;
      OverlayEntries(copies[..n], tree, p);
      assert copies == copies[..n] + [copies[n]];
      assert copies[n] in copies && forall c :: c in copies[..n] ==> c in copies;
    }
  }

  // ---------- Spelled and printed names ----------

  const FIXTURES_PATH: Path := ["demo", "fixtures"]
  const DATA_PATH: Path := ["chorus", "infrastructure"] + ["fixtures", "data"]
  const SOURCE_PATH: Path := ["src"]
  const API_PATH: Path := ["apps", "api"]

  /** Remapping, on paths. */
  function RemapPath(p: Path): Path {
    if FIXTURES_PATH < p then DATA_PATH + p[2..]
    else if SOURCE_PATH < p then p[1..]
    else if API_PATH < p then p[2..]
    else p
  }

  lemma OnePart(a: Name)
    ensures Posix([a]) == a
  {
  }

  lemma TwoParts(a: Name, b: Name)
    ensures Posix([a, b]) == a + "/" + b
  {
    assert [a, b] == [a] + [b];
    PosixConcat([a], [b]);
  }

  lemma DataPrefix()
    ensures Posix(DATA_PATH) + "/" == FIXTURE_DATA
  {
    hide Posix;
    TwoParts("chorus", "infrastructure");
    TwoParts("fixtures", "data");
    PosixConcat(["chorus", "infrastructure"], ["fixtures", "data"]);
  }

  lemma SourcePrefixes()
    ensures Posix(FIXTURES_PATH) + "/" == FIXTURES
    ensures Posix(SOURCE_PATH) + "/" == "src/" && Posix(API_PATH) + "/" == "apps/api/"
  {
    TwoParts("demo", "fixtures");
    TwoParts("apps", "api");
  }

  /** A walked path is remapped to one that again prints as it is spelled. */
  lemma RemapWalked(p: Path)
    requires p != []
    ensures RemapArchivePath(Posix(p)) == Posix(RemapPath(p)) && RemapPath(p) != []
    ensures Normal(RemapArchivePath(Posix(p)))
  {
    hide Posix, Parts;
    DataPrefix();
    SourcePrefixes();
    assert |FIXTURES_PATH| == 2 && |API_PATH| == 2 && |SOURCE_PATH| == 1;
    Below(FIXTURES_PATH, p);
    Below(SOURCE_PATH, p);
    Below(API_PATH, p);
    if FIXTURES_PATH < p { PosixConcat(DATA_PATH, p[2..]); }
    PartsOfPosix(RemapPath(p));
  }

  /** A file entry whose remapped text is not the text the archive prints for it. */
  predicate Respelled(repo: Repository, relative: string) {
    IsFile(repo, relative) && !Normal(RemapArchivePath(relative))
  }

  /** Another entry puts this text into the first-party set. */
  predicate Doubled(manifest: seq<string>, repo: Repository, relative: string, name: string) {
    exists other, f :: other in manifest && other != relative && f in repo.files && Picks(repo, other, f) &&
                       Spelling(repo, other, f) == name
  }

  /** The name under which the archive lists a copy. */
  function ArchiveName(c: Copy): string { Posix(Parts(c.spelling)) }

  /** Every staged file is first-party by its archive name. */
  ghost predicate NamesAgree(manifest: seq<string>, repo: Repository) {
    forall c :: c in AllCopied(manifest, repo) ==> ArchiveName(c) in FirstPartySet(manifest, repo)
  }

  // ---------- Scanning ----------

  datatype Match = Match(kind: string, text: string)

  /** The digest, the decoders and the pattern search the scanners rest on. */
  datatype Scanner = Scanner(
    digest: Bytes -> string, source: Bytes -> Option<string>, utf8: Bytes -> Option<string>, latin1: Bytes -> string,
    matches: string -> seq<Match>, sharedObject: string -> bool)

  datatype Problem =
    | CredentialDirectory | CredentialFile | EnvironmentFile
    | DigestMismatch | Undecodable | PrivateKey | CredentialShaped
    | ForbiddenPart | RepositoryDirectory | CompiledBytecode | HostExecutable | Launcher
    | NotElf | WrongMachine
    | NoHandler | NoPackage

  datatype Finding = Finding(name: string, problem: Problem)

  const SENSITIVE_PATH_PARTS: seq<string> := [".aws", ".ssh", ".gnupg", ".docker"]
  const SENSITIVE_BASENAMES: seq<string> :=
    ["credentials", "id_rsa", "id_dsa", "id_ecdsa", "id_ed25519", ".netrc", ".pgpass", ".htpasswd"]
  const VENDOR_CONTENT_EXCEPTIONS: seq<string> :=
    ["boto3/examples/cloudfront.rst",
     "botocore/data/iam/2010-05-08/examples-1.json",
     "botocore/data/sts/2011-06-15/examples-1.json",
     "cryptography/hazmat/primitives/serialization/ssh.py"]
  const PHOTO_RESOURCE := "chorus/infrastructure/fixtures/data/elevator-v1/evidence/elevator-e42.jpg"
  const PHOTO_SHA256 := "25cf0f0ce42f8acd9ea6facc223f54105c7fd0cce63fb7bb5d83e6600100acbd"
  const PILLOW_PATH := "PIL/ImageFont.py"
  const PILLOW_SHA256 := "24fa5feeb91b4bf63eaad0ebba08a8161e9c889d9fd056a37c928134097b9649"
  const PILLOW_ALLOWED := Match("pattern-0", "AKIA" + "AQAAAAAABAAHAM0A")
  const PRIVATE_KEY := "private-key"

  predicate Meets(parts: seq<string>, names: seq<string>) { exists p :: p in parts && p in names }

  function SensitiveNameProblem(name: string): Option<Problem> {
    var parts := Parts(name);
    var basename := if parts == [] then name else parts[|parts| - 1];
    if Meets(parts, SENSITIVE_PATH_PARTS) then Some(CredentialDirectory)
    else if basename in SENSITIVE_BASENAMES then Some(CredentialFile)
    else if StartsWith(basename, ".env") then Some(EnvironmentFile)
    else None
  }

  predicate HoldsPrivateKey(found: seq<Match>) { exists m :: m in found && m.kind == PRIVATE_KEY }

  function MatchProblem(found: seq<Match>): Option<Problem> {
    if HoldsPrivateKey(found) then Some(PrivateKey)
    else if found != [] then Some(CredentialShaped)
    else None
  }

  /** First-party content is always read: a pinned resource byte by byte, anything else as text or not at all. */
  function FirstPartyProblem(sc: Scanner, name: string, data: Bytes): Option<Problem> {
    if name == PHOTO_RESOURCE then
      if sc.digest(data) != PHOTO_SHA256 then Some(DigestMismatch) else MatchProblem(sc.matches(sc.latin1(data)))
    else
      match if EndsWith(name, ".py") then sc.source(data) else sc.utf8(data)
      case None => Some(Undecodable)
      case Some(text) => MatchProblem(sc.matches(text))
  }

  function Suppress(found: seq<Match>, allowed: bool): seq<Match> {
    if found == [] then []
    else (if allowed && found[0] == PILLOW_ALLOWED then [] else [found[0]]) + Suppress(found[1..], allowed)
  }

  /** The first match that no exception covers decides. */
  function VendoredProblem(sc: Scanner, name: string, data: Bytes): Option<Problem> {
    if name in VENDOR_CONTENT_EXCEPTIONS then None
    else
      match sc.utf8(data)
      case None => None
      case Some(text) =>
        var found := Suppress(sc.matches(text), name == PILLOW_PATH && sc.digest(data) == PILLOW_SHA256);
        if found == [] then None else if found[0].kind == PRIVATE_KEY then Some(PrivateKey) else Some(CredentialShaped)
  }

  function Found(name: string, p: Option<Problem>): seq<Finding> {
    match p case Some(problem) => [Finding(name, problem)] case None => []
  }

  function ContentFindings(sc: Scanner, name: string, data: Bytes, firstParty: bool): seq<Finding> {
    Found(name, SensitiveNameProblem(name)) +
    Found(name, if firstParty then FirstPartyProblem(sc, name, data) else VendoredProblem(sc, name, data))
  }

  function SecretFindings(sc: Scanner, archive: Tree, members: seq<Path>, firstParty: set<string>): seq<Finding>
    requires forall p :: p in members ==> p in archive
  {
    if members == [] then []
    else
      var i := |members| - 1;
      assert members[i] in members;
      SecretFindings(sc, archive, members[..i], firstParty) +
      ContentFindings(sc, Posix(members[i]), archive[members[i]], Posix(members[i]) in firstParty)
  }

  method SecretProblems(sc: Scanner, archive: Tree, members: seq<Path>, firstParty: set<string>)
    returns (problems: seq<Finding>)
    requires forall p :: p in members ==> p in archive
    ensures problems == SecretFindings(sc, archive, members, firstParty)
  {
    hide SensitiveNameProblem, FirstPartyProblem, VendoredProblem;
    problems := [];
    for i := 0 to |members|
      invariant problems == SecretFindings(sc, archive, members[..i], firstParty)
    {
      assert members[..i + 1][..i] == members[..i];
      var name := Posix(members[i]);
      var data := archive[members[i]];
      problems := problems + Found(name, SensitiveNameProblem(name));
      if name in firstParty {
        problems := problems + Found(name, FirstPartyProblem(sc, name, data));
      } else {
        problems := problems + Found(name, VendoredProblem(sc, name, data));
      }
    }
    assert members[..|members|] == members;
  }

  predicate StagedClean(sc: Scanner, staging: Tree, relatives: set<string>) {
    forall n :: n in relatives && Parts(n) in staging ==> ContentFindings(sc, n, staging[Parts(n)], true) == []
  }

  /** The first gate: what stands where each first-party text points, scanned under that text. */
  method ScanStagedFirstParty(sc: Scanner, staging: Tree, relatives: set<string>) returns (problems: seq<Finding>)
    ensures problems == [] <==> StagedClean(sc, staging, relatives)
    ensures forall f :: f in problems ==> f.name in relatives && Parts(f.name) in staging
  {
    hide SensitiveNameProblem, FirstPartyProblem, VendoredProblem, Parts;
    problems := [];
    var left := relatives;
    while left != {}
      invariant left <= relatives
      invariant problems == [] <==> StagedClean(sc, staging, relatives - left)
      invariant forall f :: f in problems ==> f.name in relatives && Parts(f.name) in staging
      decreases left
    {
      var relative :| relative in left;
      left := left - {relative};
      if Parts(relative) in staging {
        problems := problems + ContentFindings(sc, relative, staging[Parts(relative)], true);
      }
    }
  }

  // ---------- The finished archive ----------

  const FORBIDDEN_ARCHIVE_PARTS: seq<string> :=
    [".git", ".github", ".env", ".venv", ".aws", ".ssh", "node_modules", "cdk.out", ".ruff_cache"]
  const FORBIDDEN_ARCHIVE_ROOTS: seq<string> := ["tests", "docs", "infra", "apps", "demo", "build", "src", "runtimes"]
  const SCRIPT_DIRECTORY := "bin"
  const ELF_MAGIC: Bytes := [0x7f, 0x45, 0x4c, 0x46]

  datatype Architecture = X86_64 | Arm64

  function ElfMachine(a: Architecture): nat { match a case X86_64 => 0x3E case Arm64 => 0xB7 }

  function LittleEndian(b: Bytes): nat { if b == [] then 0 else b[0] as nat + 256 * LittleEndian(b[1..]) }

  function Slice(b: Bytes, lo: nat, hi: nat): Bytes
    requires lo <= hi
  {
    if |b| <= lo then [] else b[lo..if hi <= |b| then hi else |b|]
  }

  function NativeFindings(sc: Scanner, a: Architecture, name: string, data: Bytes): seq<Finding> {
    if !sc.sharedObject(name) then []
    else if Slice(data, 0, 4) != ELF_MAGIC then [Finding(name, NotElf)]
    else if LittleEndian(Slice(data, 18, 20)) != ElfMachine(a) then [Finding(name, WrongMachine)]
    else []
  }

  predicate HostBinary(name: string) {
    EndsWith(name, ".exe") || EndsWith(name, ".dll") || EndsWith(name, ".pyd") || EndsWith(name, ".bat")
  }

  function PlacementFindings(name: string): seq<Finding> {
    var parts := Parts(name);
    (if Meets(parts, FORBIDDEN_ARCHIVE_PARTS) then [Finding(name, ForbiddenPart)] else []) +
    (if parts != [] && parts[0] in FORBIDDEN_ARCHIVE_ROOTS then [Finding(name, RepositoryDirectory)] else []) +
    (if Bytecode(name) then [Finding(name, CompiledBytecode)] else []) +
    (if HostBinary(name) then [Finding(name, HostExecutable)] else []) +
    (if parts != [] && parts[0] == SCRIPT_DIRECTORY then [Finding(name, Launcher)] else [])
  }

  /** Everything that can be wrong with one entry. */
  predicate EntryClean(sc: Scanner, a: Architecture, name: string, data: Bytes, firstParty: bool) {
    NativeFindings(sc, a, name, data) == [] && ContentFindings(sc, name, data, firstParty) == [] && PlacementFindings(name) == []
  }

  predicate Lists(archive: Tree, name: string) { exists p :: p in archive && Posix(p) == name }

  /** Every entry of the archive, scanned under the name the archive prints for it. */
  predicate EntriesClean(sc: Scanner, a: Architecture, archive: Tree, firstParty: set<string>) {
    forall p :: p in archive ==> EntryClean(sc, a, Posix(p), archive[p], Posix(p) in firstParty)
  }

  lemma {:induction false} SecretFindingsEmpty(sc: Scanner, archive: Tree, members: seq<Path>, firstParty: set<string>)
    requires forall p :: p in members ==> p in archive
    ensures SecretFindings(sc, archive, members, firstParty) == [] <==>
            forall k :: 0 <= k < |members| ==>
              ContentFindings(sc, Posix(members[k]), archive[members[k]], Posix(members[k]) in firstParty) == []
  {
    hide ContentFindings, Posix;
    if members != [] {
      var i := |members| - 1;
      SecretFindingsEmpty(sc, archive, members[..i], firstParty);
      assert forall k :: 0 <= k < i ==> members[..i][k] == members[k];
    }
  }

  method InspectLambdaArchive(sc: Scanner, a: Architecture, archive: Tree, members: seq<Path>, firstParty: set<string>,
                              handlerPath: string)
    returns (problems: seq<Finding>)
    requires forall p :: p in members <==> p in archive
    ensures problems == [] <==>
            && Lists(archive, handlerPath) && Lists(archive, "chorus/__init__.py")
            && EntriesClean(sc, a, archive, firstParty)
  {
    hide NativeFindings, PlacementFindings, ContentFindings, Posix;
    problems := [];
    for i := 0 to |members|
      invariant problems == [] <==>
        forall k :: 0 <= k < i ==> NativeFindings(sc, a, Posix(members[k]), archive[members[k]]) == []
    {
      problems := problems + NativeFindings(sc, a, Posix(members[i]), archive[members[i]]);
    }
    var secrets := SecretProblems(sc, archive, members, firstParty);
    SecretFindingsEmpty(sc, archive, members, firstParty);
    problems := problems + secrets;
    if !Lists(archive, handlerPath) { problems := problems + [Finding(handlerPath, NoHandler)]; }
    if !Lists(archive, "chorus/__init__.py") { problems := problems + [Finding("chorus/__init__.py", NoPackage)]; }
    ghost var clear := problems == [];
    for i := 0 to |members|
      invariant problems == [] <==> clear && forall k :: 0 <= k < i ==> PlacementFindings(Posix(members[k])) == []
    {
      problems := problems + PlacementFindings(Posix(members[i]));
    }
    assert forall p :: p in archive ==> exists k :: 0 <= k < |members| && members[k] == p;
  }

  // ---------- What each check lets pass ----------

  /** No component names a credential directory, and the last one neither a credential nor an environment file. */
  predicate NameAllowed(name: string) {
    var parts := Parts(name);
    var base := if parts == [] then name else parts[|parts| - 1];
    && ".aws" !in parts && ".ssh" !in parts && ".gnupg" !in parts && ".docker" !in parts
    && base != "credentials" && base != ".netrc" && base != ".pgpass" && base != ".htpasswd"
    && base != "id_rsa" && base != "id_dsa" && base != "id_ecdsa" && base != "id_ed25519"
    && !(".env" <= base)
  }

  lemma NamesExactly(name: string)
    ensures SensitiveNameProblem(name) == None <==> NameAllowed(name)
  {
    hide Parts;
    var parts := Parts(name);
    assert SENSITIVE_PATH_PARTS[0] == ".aws" && SENSITIVE_PATH_PARTS[1] == ".ssh";
    assert SENSITIVE_PATH_PARTS[2] == ".gnupg" && SENSITIVE_PATH_PARTS[3] == ".docker";
    assert forall p :: p in SENSITIVE_PATH_PARTS <==> p == ".aws" || p == ".ssh" || p == ".gnupg" || p == ".docker";
  }

  /** First-party content that was decoded in full, or pinned, and is free of every pattern. */
  predicate ReadInFull(sc: Scanner, name: string, data: Bytes) {
    if name == "chorus/infrastructure/fixtures/data/elevator-v1/evidence/elevator-e42.jpg" then
      && sc.digest(data) == "25cf0f0ce42f8acd9ea6facc223f54105c7fd0cce63fb7bb5d83e6600100acbd"
      && sc.matches(sc.latin1(data)) == []
    else
      var text := if EndsWith(name, ".py") then sc.source(data) else sc.utf8(data);
      text.Some? && sc.matches(text.value) == []
  }

  lemma FirstPartyExactly(sc: Scanner, name: string, data: Bytes)
    ensures FirstPartyProblem(sc, name, data) == None <==> ReadInFull(sc, name, data)
  {
  }

  /** The one match that is excused, in the one pinned file. */
  predicate Excused(sc: Scanner, name: string, data: Bytes, m: Match) {
    && name == "PIL/ImageFont.py"
    && sc.digest(data) == "24fa5feeb91b4bf63eaad0ebba08a8161e9c889d9fd056a37c928134097b9649"
    && m == Match("pattern-0", "AKIA" + "AQAAAAAABAAHAM0A")
  }

  /** Vendored content that is named documentation, not text, or holds nothing but what is excused. */
  predicate VendoredAllowed(sc: Scanner, name: string, data: Bytes) {
    || name == "boto3/examples/cloudfront.rst"
    || name == "botocore/data/iam/2010-05-08/examples-1.json"
    || name == "botocore/data/sts/2011-06-15/examples-1.json"
    || name == "cryptography/hazmat/primitives/serialization/ssh.py"
    || sc.utf8(data) == None
    || forall m :: m in sc.matches(sc.utf8(data).value) ==> Excused(sc, name, data, m)
  }

  lemma {:induction false} SuppressKeeps(found: seq<Match>, allowed: bool)
    ensures forall m :: m in Suppress(found, allowed) <==> m in found && !(allowed && m == PILLOW_ALLOWED)
  {
    if found != [] {
      SuppressKeeps(found[1..], allowed);
      assert found == [found[0]] + found[1..];
    }
  }

  lemma VendoredExactly(sc: Scanner, name: string, data: Bytes)
    ensures VendoredProblem(sc, name, data) == None <==> VendoredAllowed(sc, name, data)
  {
    var e := VENDOR_CONTENT_EXCEPTIONS;
    assert name in e <==> name == e[0] || name == e[1] || name == e[2] || name == e[3];
    if name !in e && sc.utf8(data).Some? {
      var found, allowed := sc.matches(sc.utf8(data).value), name == PILLOW_PATH && sc.digest(data) == PILLOW_SHA256;
      SuppressKeeps(found, allowed);
      var kept := Suppress(found, allowed);
      assert kept == [] <==> forall m :: m in found ==> Excused(sc, name, data, m) by {
        if kept != [] { assert kept[0] in kept; }
      }
    }
  }

  /** No forbidden component, repository directory, bytecode, host executable or launcher. */
  predicate PlacementAllowed(name: string) {
    var parts := Parts(name);
    && ".git" !in parts && ".github" !in parts && ".env" !in parts && ".venv" !in parts && ".aws" !in parts
    && ".ssh" !in parts && "node_modules" !in parts && "cdk.out" !in parts && ".ruff_cache" !in parts
    && "__pycache__" !in parts && !EndsWith(name, ".pyc") && !EndsWith(name, ".pyo")
    && !EndsWith(name, ".exe") && !EndsWith(name, ".dll") && !EndsWith(name, ".pyd") && !EndsWith(name, ".bat")
    && (parts != [] ==>
          && parts[0] != "tests" && parts[0] != "docs" && parts[0] != "infra" && parts[0] != "apps" && parts[0] != "demo"
          && parts[0] != "build" && parts[0] != "src" && parts[0] != "runtimes" && parts[0] != "bin")
  }

  lemma PlacementExactly(name: string)
    ensures PlacementFindings(name) == [] <==> PlacementAllowed(name)
  {
    hide Parts, EndsWith;
    var f := FORBIDDEN_ARCHIVE_PARTS;
    assert f[0] == ".git" && f[1] == ".github" && f[2] == ".env" && f[3] == ".venv" && f[4] == ".aws";
    assert f[5] == ".ssh" && f[6] == "node_modules" && f[7] == "cdk.out" && f[8] == ".ruff_cache";
    assert forall p :: p in f <==> p == f[0] || p == f[1] || p == f[2] || p == f[3] || p == f[4] || p == f[5] || p == f[6] || p == f[7] || p == f[8];
  }

  /** A shared object starts as an ELF file and carries the machine it was asked for, low byte first. */
  predicate NativeAllowed(sc: Scanner, a: Architecture, name: string, data: Bytes) {
    sc.sharedObject(name) ==>
      && 18 < |data| && data[0] == 0x7f && data[1] == 0x45 && data[2] == 0x4c && data[3] == 0x46
      && data[18] == (match a case X86_64 => 0x3E case Arm64 => 0xB7)
      && (19 < |data| ==> data[19] == 0)
  }

  lemma TwoBytes(b: Bytes)
    requires |b| <= 2
    ensures LittleEndian(b) == if b == [] then 0 else b[0] as nat + if |b| == 1 then 0 else 256 * b[1] as nat
  {
    if |b| == 2 { assert b[1..] == [b[1]] && [b[1]][1..] == []; }
    if |b| == 1 { assert b[1..] == []; }
  }

  lemma NativeExactly(sc: Scanner, a: Architecture, name: string, data: Bytes)
    ensures NativeFindings(sc, a, name, data) == [] <==> NativeAllowed(sc, a, name, data)
  {
    hide LittleEndian;
    var magic, machine := Slice(data, 0, 4), Slice(data, 18, 20);
    TwoBytes(machine);
    if 4 <= |data| {
      assert magic == [data[0], data[1], data[2], data[3]];
    } else {
      assert |magic| < 4;
    }
    if |data| <= 18 {
      assert machine == [];
    } else if |data| == 19 {
      assert machine == [data[18]];
    } else {
      assert machine == [data[18], data[19]];
    }
  }

  lemma NotAnEnvironment(b: string)
    requires b in SENSITIVE_BASENAMES
    ensures !(".env" <= b)
  {
    assert b == "credentials" || b == "id_rsa" || b == "id_dsa" || b == "id_ecdsa" || b == "id_ed25519" || b == ".netrc" ||
           b == ".pgpass" || b == ".htpasswd";
    assert ".env"[0] == '.' && ".env"[1] == 'e';
  }

  /** Which reason a name is refused for, in the order they are tried. */
  lemma NameReasons(name: string)
    ensures var parts, r := Parts(name), SensitiveNameProblem(name);
            var base, directory := if parts == [] then name else parts[|parts| - 1],
              ".aws" in parts || ".ssh" in parts || ".gnupg" in parts || ".docker" in parts;
            && (r == Some(CredentialDirectory) <==> directory)
            && (r == Some(EnvironmentFile) ==> !directory && ".env" <= base)
            && (r == Some(CredentialFile) ==> !directory)
            && (r.Some? ==> r.value == CredentialDirectory || r.value == CredentialFile || r.value == EnvironmentFile)
            && (!directory && ".env" <= base ==> r == Some(EnvironmentFile))
  {
    hide Parts;
    NamesExactly(name);
    var d := SENSITIVE_PATH_PARTS;
    assert d[0] == ".aws" && d[1] == ".ssh" && d[2] == ".gnupg" && d[3] == ".docker";
    assert forall p :: p in d <==> p == d[0] || p == d[1] || p == d[2] || p == d[3];
    forall b | b in SENSITIVE_BASENAMES ensures !(".env" <= b) { NotAnEnvironment(b); }
  }

  /** A private key among the matches is called that; any other match credential-shaped. */
  predicate TellsMatches(r: Option<Problem>, found: seq<Match>) {
    && (r == Some(PrivateKey) <==> exists m :: m in found && m.kind == "private-key")
    && (r == Some(CredentialShaped) <==> found != [] && forall m :: m in found ==> m.kind != "private-key")
    && (r == None <==> found == [])
  }

  /** Which reason first-party content is refused for. */
  lemma FirstPartyReasons(sc: Scanner, name: string, data: Bytes)
    ensures var r := FirstPartyProblem(sc, name, data);
            if name == "chorus/infrastructure/fixtures/data/elevator-v1/evidence/elevator-e42.jpg" then
              && (r == Some(DigestMismatch) <==>
                    sc.digest(data) != "25cf0f0ce42f8acd9ea6facc223f54105c7fd0cce63fb7bb5d83e6600100acbd")
              && (r != Some(DigestMismatch) ==> TellsMatches(r, sc.matches(sc.latin1(data))))
            else
              var text := if EndsWith(name, ".py") then sc.source(data) else sc.utf8(data);
              if text.None? then r == Some(Undecodable) else TellsMatches(r, sc.matches(text.value))
  {
  }

  lemma {:induction false} FirstKept(found: seq<Match>, allowed: bool, i: nat)
    requires i < |found| && !(allowed && found[i] == PILLOW_ALLOWED) && (0 < i ==> allowed)
    requires forall k :: 0 <= k < i ==> found[k] == PILLOW_ALLOWED
    ensures Suppress(found, allowed) != [] && Suppress(found, allowed)[0] == found[i]
  {
    if i != 0 {
      var rest := found[1..];
      assert rest[i - 1] == found[i];
      forall k | 0 <= k < i - 1 ensures rest[k] == PILLOW_ALLOWED { assert rest[k] == found[k + 1]; }
      FirstKept(rest, allowed, i - 1);
    }
  }

  /** The first vendored match that is not excused is the one named. */
  lemma VendoredReasons(sc: Scanner, name: string, data: Bytes, i: nat)
    requires sc.utf8(data).Some? && i < |sc.matches(sc.utf8(data).value)| && !VendoredAllowed(sc, name, data)
    requires var found := sc.matches(sc.utf8(data).value);
             !Excused(sc, name, data, found[i]) && forall k :: 0 <= k < i ==> Excused(sc, name, data, found[k])
    ensures VendoredProblem(sc, name, data) ==
            Some(if sc.matches(sc.utf8(data).value)[i].kind == "private-key" then PrivateKey else CredentialShaped)
  {
    var e, found := VENDOR_CONTENT_EXCEPTIONS, sc.matches(sc.utf8(data).value);
    assert name in e <==> name == e[0] || name == e[1] || name == e[2] || name == e[3];
    var allowed := name == PILLOW_PATH && sc.digest(data) == PILLOW_SHA256;
    assert 0 < i ==> Excused(sc, name, data, found[0]);
    forall k | 0 <= k < i ensures found[k] == PILLOW_ALLOWED {
      assert Excused(sc, name, data, found[k]);
    }
    FirstKept(found, allowed, i);
  }

  /** Each misplacement is told on its own, and each native file that is wrong by what is wrong with it. */
  lemma PlacementReasons(name: string, f: Finding)
    ensures var parts := Parts(name);
            f in PlacementFindings(name) <==>
              && f.name == name
              && match f.problem
                 case ForbiddenPart =>
                   || ".git" in parts || ".github" in parts || ".env" in parts || ".venv" in parts || ".aws" in parts
                   || ".ssh" in parts || "node_modules" in parts || "cdk.out" in parts || ".ruff_cache" in parts
                 case RepositoryDirectory =>
                   parts != [] && parts[0] in {"tests", "docs", "infra", "apps", "demo", "build", "src", "runtimes"}
                 case CompiledBytecode => EndsWith(name, ".pyc") || EndsWith(name, ".pyo") || "__pycache__" in parts
                 case HostExecutable =>
                   EndsWith(name, ".exe") || EndsWith(name, ".dll") || EndsWith(name, ".pyd") || EndsWith(name, ".bat")
                 case Launcher => parts != [] && parts[0] == "bin"
                 case _ => false
  {
    hide Parts, EndsWith;
    var p := FORBIDDEN_ARCHIVE_PARTS;
    assert p[0] == ".git" && p[1] == ".github" && p[2] == ".env" && p[3] == ".venv" && p[4] == ".aws";
    assert p[5] == ".ssh" && p[6] == "node_modules" && p[7] == "cdk.out" && p[8] == ".ruff_cache";
    assert forall q :: q in p <==> q == p[0] || q == p[1] || q == p[2] || q == p[3] || q == p[4] || q == p[5] || q == p[6] || q == p[7] || q == p[8];
  }

  lemma NativeReasons(sc: Scanner, a: Architecture, name: string, data: Bytes)
    requires !NativeAllowed(sc, a, name, data)
    ensures NativeFindings(sc, a, name, data) ==
            [Finding(name, if 4 <= |data| && data[..4] == [0x7f, 0x45, 0x4c, 0x46] then WrongMachine else NotElf)]
  {
    hide LittleEndian;
    NativeExactly(sc, a, name, data);
    if 4 <= |data| { assert Slice(data, 0, 4) == data[..4]; } else { assert |Slice(data, 0, 4)| < 4; }
  }

  lemma ContentTold(sc: Scanner, name: string, data: Bytes, firstParty: bool, f: Finding)
    ensures f in ContentFindings(sc, name, data, firstParty) <==>
            f.name == name &&
            (|| SensitiveNameProblem(name) == Some(f.problem)
             || (firstParty && FirstPartyProblem(sc, name, data) == Some(f.problem))
             || (!firstParty && VendoredProblem(sc, name, data) == Some(f.problem)))
  {
    hide SensitiveNameProblem, FirstPartyProblem, VendoredProblem;
    assert f == Finding(f.name, f.problem);
  }

  /** Every finding about the contents of an archive is one about some entry, under the name it ships with. */
  lemma {:induction false} SecretsTold(sc: Scanner, archive: Tree, members: seq<Path>, firstParty: set<string>, f: Finding)
    requires forall p :: p in members ==> p in archive
    ensures f in SecretFindings(sc, archive, members, firstParty) <==>
            exists p :: p in members && f.name == Posix(p) &&
                        (|| SensitiveNameProblem(f.name) == Some(f.problem)
                         || (f.name in firstParty && FirstPartyProblem(sc, f.name, archive[p]) == Some(f.problem))
                         || (f.name !in firstParty && VendoredProblem(sc, f.name, archive[p]) == Some(f.problem)))
  {
    hide SensitiveNameProblem, FirstPartyProblem, VendoredProblem, ContentFindings, Posix;
    if members != [] {
      var i := |members| - 1;
      var name, data := Posix(members[i]), archive[members[i]];
      SecretsTold(sc, archive, members[..i], firstParty, f);
      ContentTold(sc, name, data, name in firstParty, f);
      assert members == members[..i] + [members[i]];
    }
  }

  /** Everything one shipped entry has been cleared of. */
  predicate Cleared(sc: Scanner, a: Architecture, name: string, data: Bytes, firstParty: bool) {
    && NameAllowed(name) && PlacementAllowed(name) && NativeAllowed(sc, a, name, data)
    && if firstParty then ReadInFull(sc, name, data) else VendoredAllowed(sc, name, data)
  }

  lemma EntriesExactly(sc: Scanner, a: Architecture, name: string, data: Bytes, firstParty: bool)
    ensures EntryClean(sc, a, name, data, firstParty) <==> Cleared(sc, a, name, data, firstParty)
    ensures ContentFindings(sc, name, data, true) == [] <==> NameAllowed(name) && ReadInFull(sc, name, data)
  {
    hide NativeFindings, PlacementFindings, SensitiveNameProblem, FirstPartyProblem, VendoredProblem;
    hide NameAllowed, PlacementAllowed, NativeAllowed, ReadInFull, VendoredAllowed;
    NamesExactly(name);
    PlacementExactly(name);
    NativeExactly(sc, a, name, data);
    FirstPartyExactly(sc, name, data);
    VendoredExactly(sc, name, data);
  }

  // ---------- The build ----------

  method Members(tree: Tree) returns (members: seq<Path>)
    ensures forall p :: p in members <==> p in tree
  {
    members := [];
    var left := tree.Keys;
    while left != {}
      invariant left <= tree.Keys
      invariant forall p :: p in members <==> p in tree.Keys - left
      decreases left
    {
      var p :| p in left;
      left := left - {p};
      members := members + [p];
    }
  }

  /** Exactly when a build returns. */
  predicate Shippable(sc: Scanner, a: Architecture, manifest: seq<string>, handlerPath: string, repo: Repository, vendored: Tree) {
    var archive, firstParty := Overlay(AllCopied(manifest, repo), vendored), FirstPartySet(manifest, repo);
    && AllDeclared(manifest, repo)
    && StagedClean(sc, archive, firstParty)
    && Lists(archive, handlerPath) && Lists(archive, "chorus/__init__.py")
    && EntriesClean(sc, a, archive, firstParty)
  }

  method BuildLambda(sc: Scanner, a: Architecture, manifest: seq<string>, handlerPath: string, repo: Repository, vendored: Tree)
    returns (r: Option<Tree>)
    requires AllContained(manifest, repo)
    ensures r.Some? <==> Shippable(sc, a, manifest, handlerPath, repo, vendored)
    ensures r.Some? ==> r.value == Overlay(AllCopied(manifest, repo), vendored)
  {
    hide AllDeclared, Overlay, AllCopied, FirstPartySet, StagedClean, EntriesClean, Lists, AllContained;
    var staging := StageFirstParty(manifest, repo, vendored);
    if staging.None? { return None; }
    var firstParty := ArchiveFirstParty(manifest, repo);
    var staged := ScanStagedFirstParty(sc, staging.value, firstParty);
    if staged != [] { return None; }
    var members := Members(staging.value);
    var problems := InspectLambdaArchive(sc, a, staging.value, members, firstParty, handlerPath);
    if problems != [] { return None; }
    r := staging;
  }

  /**
   When a build returns, exactly: every manifest entry names a file or directory, what stands where
   each first-party text points is named and read as first-party, the handler and the package are
   listed, and every entry has been cleared under the name it ships with.
   */
  lemma ReturnsExactly(sc: Scanner, a: Architecture, manifest: seq<string>, handlerPath: string, repo: Repository, vendored: Tree)
    ensures var archive, firstParty := Overlay(AllCopied(manifest, repo), vendored), FirstPartySet(manifest, repo);
            Shippable(sc, a, manifest, handlerPath, repo, vendored) <==>
              && (forall r :: r in manifest ==> (exists f :: f in repo.files && f.path == Parts(r)) || Parts(r) in repo.directories)
              && (forall n :: n in firstParty && Parts(n) in archive ==> NameAllowed(n) && ReadInFull(sc, n, archive[Parts(n)]))
              && (exists p :: p in archive && Posix(p) == handlerPath)
              && (exists p :: p in archive && Posix(p) == "chorus/__init__.py")
              && (forall p :: p in archive ==> Cleared(sc, a, Posix(p), archive[p], Posix(p) in firstParty))
  {
    hide Overlay, AllCopied, FirstPartySet, EntryClean, ContentFindings, Cleared, NameAllowed, ReadInFull;
    hide Posix, Parts;
    var archive, firstParty := Overlay(AllCopied(manifest, repo), vendored), FirstPartySet(manifest, repo);
    forall p | p in archive
      ensures EntryClean(sc, a, Posix(p), archive[p], Posix(p) in firstParty) <==>
              Cleared(sc, a, Posix(p), archive[p], Posix(p) in firstParty)
    {
      EntriesExactly(sc, a, Posix(p), archive[p], Posix(p) in firstParty);
    }
    forall n | n in firstParty && Parts(n) in archive
      ensures ContentFindings(sc, n, archive[Parts(n)], true) == [] <==> NameAllowed(n) && ReadInFull(sc, n, archive[Parts(n)])
    {
      EntriesExactly(sc, a, n, archive[Parts(n)], true);
    }
  }

  // ---------- When the two texts agree ----------

  lemma InFirstPartySet(manifest: seq<string>, repo: Repository, name: string)
    ensures name in FirstPartySet(manifest, repo) <==>
            exists relative, f :: relative in manifest && f in repo.files && Picks(repo, relative, f) &&
                                  Spelling(repo, relative, f) == name
  {
    hide Picks, Spelling;
  }

  /** Each copy's own text is in the first-party set; a walked file's also prints as it is spelled. */
  lemma CopySpelled(manifest: seq<string>, repo: Repository, relative: string, f: File, c: Copy)
    requires relative in manifest && f in repo.files && CopyOf(repo, relative, f, c)
    ensures c.spelling in FirstPartySet(manifest, repo)
    ensures IsFile(repo, relative) ==> c.spelling == RemapArchivePath(relative)
    ensures !IsFile(repo, relative) ==> Normal(c.spelling)
  {
    hide RemapArchivePath, Normal;
    InFirstPartySet(manifest, repo, c.spelling);
    if !IsFile(repo, relative) { RemapWalked(f.path); }
  }

  lemma RespelledDoubled(manifest: seq<string>, repo: Repository, r: string)
    requires NamesAgree(manifest, repo) && r in manifest && Respelled(repo, r)
    ensures Doubled(manifest, repo, r, Posix(Parts(RemapArchivePath(r))))
  {
    hide AllCopied, FirstPartySet, Posix, Parts, RemapArchivePath;
    var f :| f in repo.files && f.path == Parts(r);
    var c := Copy(RemapArchivePath(r), f.data);
    assert CopyOf(repo, r, f, c);
    AllCopiedMembers(manifest, repo, c);
    InFirstPartySet(manifest, repo, ArchiveName(c));
  }

  /**
   Exactly when staging, the first-party set and the archive agree: every staged file is first-party
   by its archive name if and only if each file entry is spelled, once remapped, the way the archive
   prints it, or another entry puts that text into the set.
   */
  lemma StagingAgrees(manifest: seq<string>, repo: Repository)
    requires AllContained(manifest, repo)
    ensures NamesAgree(manifest, repo) <==>
            forall r :: r in manifest && Respelled(repo, r) ==>
              Doubled(manifest, repo, r, Posix(Parts(RemapArchivePath(r))))
  {
    hide AllCopied, FirstPartySet, Posix, Parts, AllContained;
    if forall r :: r in manifest && Respelled(repo, r) ==> Doubled(manifest, repo, r, Posix(Parts(RemapArchivePath(r)))) {
      forall c | c in AllCopied(manifest, repo) ensures ArchiveName(c) in FirstPartySet(manifest, repo) {
        AllCopiedMembers(manifest, repo, c);
        var relative, f :| relative in manifest && f in repo.files && CopyOf(repo, relative, f, c);
        CopySpelled(manifest, repo, relative, f, c);
        InFirstPartySet(manifest, repo, ArchiveName(c));
      }
    }
    if NamesAgree(manifest, repo) {
      forall r | r in manifest && Respelled(repo, r)
        ensures Doubled(manifest, repo, r, Posix(Parts(RemapArchivePath(r))))
      {
        RespelledDoubled(manifest, repo, r);
      }
    }
  }

  /** Staging skips nothing an entry picks but bytecode found by walking a directory. */
  lemma StagingSkipsOnlyBytecode(manifest: seq<string>, repo: Repository, vendored: Tree, relative: string, f: File)
    requires relative in manifest && f in repo.files && Picks(repo, relative, f)
    ensures IsFile(repo, relative) || !Bytecode(Posix(f.path)) ==>
              Parts(Spelling(repo, relative, f)) in Overlay(AllCopied(manifest, repo), vendored)
  {
    hide AllCopied, Overlay, Posix, Parts, Picks, Spelling, Bytecode, IsFile;
    if IsFile(repo, relative) || !Bytecode(Posix(f.path)) {
      var c := Copy(Spelling(repo, relative, f), f.data);
      assert CopyOf(repo, relative, f, c);
      AllCopiedMembers(manifest, repo, c);
      OverlayEntries(AllCopied(manifest, repo), vendored, Parts(c.spelling));
    }
  }

  /** What no first-party text points to ships exactly as installed, whatever the spellings. */
  lemma VendoredUntouched(manifest: seq<string>, repo: Repository, vendored: Tree, p: Path)
    requires forall s :: s in FirstPartySet(manifest, repo) ==> Parts(s) != p
    ensures var archive := Overlay(AllCopied(manifest, repo), vendored);
            (p in archive <==> p in vendored) && (p in vendored ==> archive[p] == vendored[p])
  {
    hide AllCopied, FirstPartySet, Overlay, Parts, CopyOf;
    OverlayEntries(AllCopied(manifest, repo), vendored, p);
    forall c | c in AllCopied(manifest, repo) ensures Parts(c.spelling) != p {
      AllCopiedMembers(manifest, repo, c);
      var relative, f :| relative in manifest && f in repo.files && CopyOf(repo, relative, f, c);
      CopySpelled(manifest, repo, relative, f, c);
    }
  }

  /** Where the texts agree, a name outside the set is enough to say so. */
  lemma VendoredUntouchedByName(manifest: seq<string>, repo: Repository, vendored: Tree, p: Path)
    requires NamesAgree(manifest, repo) && Posix(p) !in FirstPartySet(manifest, repo)
    ensures var archive := Overlay(AllCopied(manifest, repo), vendored);
            (p in archive <==> p in vendored) && (p in vendored ==> archive[p] == vendored[p])
  {
    hide AllCopied, FirstPartySet, Overlay, Parts, Posix;
    OverlayEntries(AllCopied(manifest, repo), vendored, p);
  }

  /** Every entry that is respelled and alone ships its file under a name the first-party set lacks. */
  lemma RespelledAlone(repo: Repository, r: string, vendored: Tree) returns (f: File)
    requires Respelled(repo, r)
    ensures var p, archive := Parts(RemapArchivePath(r)), Overlay(AllCopied([r], repo), vendored);
            && Posix(p) !in FirstPartySet([r], repo)
            && f in repo.files && f.path == Parts(r) && p in archive && archive[p] == f.data
  {
    hide AllCopied, FirstPartySet, Overlay, Posix, Parts, RemapArchivePath;
    var p := Parts(RemapArchivePath(r));
    InFirstPartySet([r], repo, Posix(p));
    var g :| g in repo.files && g.path == Parts(r);
    var c := Copy(RemapArchivePath(r), g.data);
    assert CopyOf(repo, r, g, c) && r in [r];
    AllCopiedMembers([r], repo, c);
    OverlayEntries(AllCopied([r], repo), vendored, p);
    var shipped :| shipped in AllCopied([r], repo) && Parts(shipped.spelling) == p &&
                   Overlay(AllCopied([r], repo), vendored)[p] == shipped.data;
    AllCopiedMembers([r], repo, shipped);
    var relative, h :| relative in [r] && h in repo.files && CopyOf(repo, relative, h, shipped);
    f := h;
  }

  // ---------- What a returned build proves ----------

  /** The first-party scan reads a file alike under two names. */
  predicate ReadAlike(a: string, b: string) {
    (EndsWith(a, ".py") <==> EndsWith(b, ".py")) && (a == PHOTO_RESOURCE <==> b == PHOTO_RESOURCE)
  }

  /**
   The gate: if a build returns, the entry of every copied file holds the bytes of a repository file
   copied to that path, read in full as first-party under the text the manifest gave it, and nothing
   shipped is bytecode. The same holds under the name the archive prints when that name is in the
   first-party set or the scan reads the two names alike. No vendor exception applies then, even
   where the copy overwrote a vendored file.
   */
  lemma GateHolds(sc: Scanner, a: Architecture, manifest: seq<string>, handlerPath: string, repo: Repository, vendored: Tree,
                  c: Copy) returns (shipped: Copy)
    requires Shippable(sc, a, manifest, handlerPath, repo, vendored)
    requires c in AllCopied(manifest, repo)
    ensures var archive, p := Overlay(AllCopied(manifest, repo), vendored), Parts(c.spelling);
            && p in archive && archive[p] == shipped.data
            && shipped in AllCopied(manifest, repo) && Parts(shipped.spelling) == p
            && c.spelling in FirstPartySet(manifest, repo)
            && ReadInFull(sc, c.spelling, shipped.data) && NameAllowed(c.spelling)
            && NameAllowed(ArchiveName(c)) && PlacementAllowed(ArchiveName(c))
            && (ArchiveName(c) in FirstPartySet(manifest, repo) || ReadAlike(c.spelling, ArchiveName(c)) ==>
                  ReadInFull(sc, ArchiveName(c), shipped.data))
  {
    hide AllCopied, FirstPartySet, Overlay, CopyOf, ContentFindings, Lists, Posix, Parts, EntryClean;
    hide NameAllowed, PlacementAllowed, NativeAllowed, VendoredAllowed;
    var copies, p := AllCopied(manifest, repo), Parts(c.spelling);
    OverlayEntries(copies, vendored, p);
    shipped :| shipped in copies && Parts(shipped.spelling) == p && Overlay(copies, vendored)[p] == shipped.data;
    AllCopiedMembers(manifest, repo, c);
    var relative, f :| relative in manifest && f in repo.files && CopyOf(repo, relative, f, c);
    CopySpelled(manifest, repo, relative, f, c);
    EntriesExactly(sc, a, c.spelling, shipped.data, true);
    var name := ArchiveName(c);
    assert EntryClean(sc, a, name, shipped.data, name in FirstPartySet(manifest, repo));
    EntriesExactly(sc, a, name, shipped.data, name in FirstPartySet(manifest, repo));
  }

  /**
   The vendored half of the gate: whatever a returned build ships under a name outside the
   first-party set is documentation named exactly, is no text, or holds no match but the one excused.
   */
  lemma VendoredGate(sc: Scanner, a: Architecture, manifest: seq<string>, handlerPath: string, repo: Repository, vendored: Tree, p: Path)
    requires Shippable(sc, a, manifest, handlerPath, repo, vendored)
    requires p in Overlay(AllCopied(manifest, repo), vendored) && Posix(p) !in FirstPartySet(manifest, repo)
    requires Posix(p) != "boto3/examples/cloudfront.rst" && Posix(p) != "botocore/data/iam/2010-05-08/examples-1.json"
    requires Posix(p) != "botocore/data/sts/2011-06-15/examples-1.json"
    requires Posix(p) != "cryptography/hazmat/primitives/serialization/ssh.py"
    ensures var data := Overlay(AllCopied(manifest, repo), vendored)[p];
            && NameAllowed(Posix(p)) && PlacementAllowed(Posix(p))
            && (sc.utf8(data).Some? ==>
                  forall m :: m in sc.matches(sc.utf8(data).value) ==>
                    && Posix(p) == "PIL/ImageFont.py" && m == Match("pattern-0", "AKIA" + "AQAAAAAABAAHAM0A")
                    && sc.digest(data) == "24fa5feeb91b4bf63eaad0ebba08a8161e9c889d9fd056a37c928134097b9649")
  {
    hide Shippable, AllCopied, FirstPartySet, Overlay, NameAllowed, PlacementAllowed, NativeAllowed, ReadInFull, Posix, Parts, Lists;
    ReturnsExactly(sc, a, manifest, handlerPath, repo, vendored);
  }

  /** One match that is not excused, in any vendored text but the four, and the build does not return. */
  lemma VendoredMatchRefuses(sc: Scanner, a: Architecture, manifest: seq<string>, handlerPath: string, repo: Repository, vendored: Tree,
                             p: Path, m: Match)
    requires p in vendored && (forall n :: n in FirstPartySet(manifest, repo) ==> Parts(n) != p)
    requires sc.utf8(vendored[p]).Some? && m in sc.matches(sc.utf8(vendored[p]).value)
    requires Posix(p) != "boto3/examples/cloudfront.rst" && Posix(p) != "botocore/data/iam/2010-05-08/examples-1.json"
    requires Posix(p) != "botocore/data/sts/2011-06-15/examples-1.json"
    requires Posix(p) != "cryptography/hazmat/primitives/serialization/ssh.py"
    requires Posix(p) != "PIL/ImageFont.py" || m.kind == "private-key"
    ensures !Shippable(sc, a, manifest, handlerPath, repo, vendored)
  {
    hide Shippable, AllCopied, FirstPartySet, Overlay, NameAllowed, PlacementAllowed, NativeAllowed, Posix, Parts, Lists;
    VendoredUntouched(manifest, repo, vendored, p);
    if Posix(p) in FirstPartySet(manifest, repo) { PartsOfPosix(p); }
    ReturnsExactly(sc, a, manifest, handlerPath, repo, vendored);
  }

  // ---------- A manifest the gate does not hold for ----------

  const RESPELLED := "src/chorus/x.py/"
  const MODULE_PATH: Path := ["chorus", "x.py"]
  const PACKAGE_PATH: Path := ["chorus", "__init__.py"]

  function OneModule(data: Bytes): Repository { Repository([File(SOURCE_PATH + MODULE_PATH, data)], {}) }

  /** Clean as UTF-8, and not clean in the encoding the source declares. */
  predicate Disguised(sc: Scanner, data: Bytes) {
    && sc.utf8(data).Some? && sc.matches(sc.utf8(data).value) == []
    && sc.source(data).Some? && sc.matches(sc.source(data).value) != []
  }

  lemma MemberNames()
    ensures Posix(MODULE_PATH) == "chorus/x.py" && Posix(PACKAGE_PATH) == "chorus/__init__.py"
    ensures Posix(SOURCE_PATH + MODULE_PATH) == "src/chorus/x.py"
  {
    hide Posix;
    TwoParts("chorus", "x.py");
    TwoParts("chorus", "__init__.py");
    PosixConcat(SOURCE_PATH, MODULE_PATH);
    OnePart("src");
  }

  lemma RespelledNames()
    ensures Parts(RESPELLED) == SOURCE_PATH + MODULE_PATH && Parts("chorus/x.py/") == MODULE_PATH
    ensures RemapArchivePath(RESPELLED) == "chorus/x.py/"
  {
    hide PartsFrom, Posix;
    MemberNames();
    TrailingSlash("", "chorus/x.py");
    TrailingSlash("", "src/chorus/x.py");
    PartsOfPosix(MODULE_PATH);
    PartsOfPosix(SOURCE_PATH + MODULE_PATH);
    assert "chorus/x.py" + "/" == "chorus/x.py/" && "src/chorus/x.py" + "/" == RESPELLED;
    assert RESPELLED[..4] == "src/" && RESPELLED[4..] == "chorus/x.py/";
    assert RESPELLED[0] == 's' && FIXTURES[0] == 'd';
  }

  /** What is staged for that manifest, and what is called first-party. */
  lemma RespelledStages(data: Bytes, vendored: Tree)
    ensures var repo, manifest := OneModule(data), [RESPELLED];
            && AllContained(manifest, repo) && AllDeclared(manifest, repo)
            && FirstPartySet(manifest, repo) == {"chorus/x.py/"}
            && AllCopied(manifest, repo) == [Copy("chorus/x.py/", data)]
            && Overlay(AllCopied(manifest, repo), vendored) == vendored[MODULE_PATH := data]
  {
    hide Parts, RemapArchivePath, Posix, Bytecode;
    RespelledNames();
    var repo, manifest := OneModule(data), [RESPELLED];
    var f := repo.files[0];
    assert f in repo.files && IsFile(repo, RESPELLED) && Copies(repo, RESPELLED, f);
    assert RESPELLED[0] == 's' && "chorus/x.py/"[0] == 'c' && |SOURCE_PATH + MODULE_PATH| == 3;
    assert RESPELLED in manifest && Picks(repo, RESPELLED, f) && Spelling(repo, RESPELLED, f) == "chorus/x.py/";
    assert Copied(repo, RESPELLED, repo.files) == [Copy("chorus/x.py/", data)] by { assert repo.files[..0] == []; }
    assert manifest[..0] == [] && AllCopied(manifest[..0], repo) == [];
    var copies := [Copy("chorus/x.py/", data)];
    assert copies[..0] == [];
  }

  /** A name the name and placement checks let pass. */
  predicate Bland(name: string) {
    SensitiveNameProblem(name) == None && PlacementFindings(name) == [] && name !in VENDOR_CONTENT_EXCEPTIONS &&
    name != PILLOW_PATH && name != PHOTO_RESOURCE
  }

  lemma PackageFolder()
    ensures "chorus" !in SENSITIVE_PATH_PARTS && "chorus" !in FORBIDDEN_ARCHIVE_PARTS && "chorus" !in FORBIDDEN_ARCHIVE_ROOTS
    ensures "chorus" != SCRIPT_DIRECTORY && "chorus" != "__pycache__"
  {
    assert "chorus"[0] == 'c' && ".gnupg"[0] == '.';
  }

  lemma ModuleFile()
    ensures "x.py" !in SENSITIVE_PATH_PARTS && "x.py" !in FORBIDDEN_ARCHIVE_PARTS && "x.py" !in SENSITIVE_BASENAMES
    ensures "x.py" != "__pycache__" && !StartsWith("x.py", ".env")
  {
    assert "x.py"[0] == 'x';
  }

  lemma PackageFile()
    ensures "__init__.py" !in SENSITIVE_PATH_PARTS && "__init__.py" !in FORBIDDEN_ARCHIVE_PARTS
    ensures "__init__.py" !in SENSITIVE_BASENAMES && "__init__.py" != "__pycache__" && !StartsWith("__init__.py", ".env")
  {
    assert "__init__.py"[0] == '_' && "__init__.py"[2] == 'i' && "__pycache__"[2] == 'p';
  }

  lemma TwoPartsBland(name: string, base: Name)
    requires Parts(name) == ["chorus", base]
    requires base !in SENSITIVE_PATH_PARTS && base !in FORBIDDEN_ARCHIVE_PARTS && base !in SENSITIVE_BASENAMES
    requires base != "__pycache__" && !StartsWith(base, ".env")
    ensures SensitiveNameProblem(name) == None
    ensures !EndsWith(name, ".pyc") && !EndsWith(name, ".pyo") && !HostBinary(name) ==> PlacementFindings(name) == []
  {
    hide Parts, HostBinary, EndsWith;
    PackageFolder();
  }

  lemma ModuleBland()
    ensures Bland("chorus/x.py") && SensitiveNameProblem("chorus/x.py/") == None
  {
    hide Posix, Parts, SensitiveNameProblem, PlacementFindings;
    MemberNames();
    RespelledNames();
    PartsOfPosix(MODULE_PATH);
    ModuleFile();
    assert |"chorus/x.py"| == 11;
    TwoPartsBland("chorus/x.py", "x.py");
    TwoPartsBland("chorus/x.py/", "x.py");
  }

  lemma PackageBland()
    ensures Bland("chorus/__init__.py")
  {
    hide Posix, Parts, SensitiveNameProblem, PlacementFindings;
    MemberNames();
    PartsOfPosix(PACKAGE_PATH);
    PackageFile();
    assert |"chorus/__init__.py"| == 18;
    TwoPartsBland("chorus/__init__.py", "__init__.py");
  }

  lemma SlashedSuffix()
    ensures !EndsWith("chorus/x.py/", ".py") && EndsWith("chorus/x.py", ".py")
    ensures "chorus/x.py/" != PHOTO_RESOURCE && "chorus/x.py" != "chorus/x.py/" && "chorus/__init__.py" != "chorus/x.py/"
  {
    assert "chorus/x.py/"[9..] == "py/" && "py/"[0] == 'p' && ".py"[0] == '.' && "chorus/x.py"[8..] == ".py";
    assert |"chorus/x.py/"| == 12;
  }

  lemma ModuleIsNotPackage()
    ensures MODULE_PATH != PACKAGE_PATH
  {
    assert |MODULE_PATH[1]| == 4 && |PACKAGE_PATH[1]| == 11;
  }

  lemma VendoredClean(sc: Scanner, name: string, data: Bytes)
    requires Bland(name) && sc.utf8(data).Some? && sc.matches(sc.utf8(data).value) == []
    ensures ContentFindings(sc, name, data, false) == []
  {
    hide SensitiveNameProblem, PlacementFindings;
  }

  /**
   One trailing slash, and the gate's promise fails: the build returns and ships a module whose own
   source reading holds a credential pattern. The staged scan read the same bytes under the slashed
   name, as plain UTF-8; the archive scan took the entry for a vendored one. It happens for every
   scanner and every file that the two encodings read differently.
   */
  lemma RespelledSlips(sc: Scanner, a: Architecture, data: Bytes, package: Bytes)
    requires Disguised(sc, data) && sc.utf8(package).Some? && sc.matches(sc.utf8(package).value) == []
    requires !sc.sharedObject("chorus/x.py") && !sc.sharedObject("chorus/__init__.py")
    ensures var repo, vendored := OneModule(data), map[PACKAGE_PATH := package];
            && Shippable(sc, a, [RESPELLED], "chorus/x.py", repo, vendored)
            && Overlay(AllCopied([RESPELLED], repo), vendored) == vendored[MODULE_PATH := data]
            && Posix(MODULE_PATH) == "chorus/x.py" && !ReadInFull(sc, "chorus/x.py", data)
  {
    hide Posix, Parts, SensitiveNameProblem, PlacementFindings, AllCopied, FirstPartySet, Overlay, AllDeclared, EndsWith;
    var repo, vendored := OneModule(data), map[PACKAGE_PATH := package];
    MemberNames();
    RespelledNames();
    RespelledStages(data, vendored);
    ModuleBland();
    PackageBland();
    SlashedSuffix();
    var archive := vendored[MODULE_PATH := data];
    assert MODULE_PATH in archive && PACKAGE_PATH in archive && archive[PACKAGE_PATH] == package by { ModuleIsNotPackage(); }
    assert forall p :: p in archive ==> p == MODULE_PATH || p == PACKAGE_PATH;
    VendoredClean(sc, "chorus/x.py", data);
    VendoredClean(sc, "chorus/__init__.py", package);
  }

  /** Such a scanner and such a file exist. */
  lemma SomethingIsDisguised() returns (sc: Scanner, data: Bytes)
    ensures Disguised(sc, data)
  {
    sc := Scanner(_ => "", _ => Some("key"), _ => Some(""), _ => "", t => if t == "" then [] else [Match(PRIVATE_KEY, t)], _ => false);
    data := [];
  }
}
