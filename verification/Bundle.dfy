/** Attachment names and the stored bundle: every name reduced to a bare one, kept apart from the
    others, and every attachment found again when the bundle is opened. */
module Bundle {
  import opened Framing
  import opened Wrappers

  // ---------------------------------------------------------------------------------------- names

  /** `str.isspace` for one character: what `strip` removes. */
  predicate White(c: char) {
    var n := c as int;
    || 9 <= n <= 13 || 28 <= n <= 32 || n == 0x85 || n == 0xA0 || n == 0x1680 || 0x2000 <= n <= 0x200A
    || n == 0x2028 || n == 0x2029 || n == 0x202F || n == 0x205F || n == 0x3000
  }

  function Strip(s: string): (r: string)
    ensures |r| <= |s|
    ensures r == "" || (!White(r[0]) && !White(r[|r| - 1]))
    ensures forall c :: c in r ==> c in s
    ensures s != "" && !White(s[0]) && !White(s[|s| - 1]) ==> r == s
    decreases |s|
  {
    if s == "" then ""
    else if White(s[0]) then Strip(s[1..])
    else if White(s[|s| - 1]) then Strip(s[..|s| - 1])
    else s
  }

  /** `replace("\\", "/")`. */
  function ForwardSlashes(s: string): (r: string)
    ensures |r| == |s|
    ensures forall i :: 0 <= i < |s| ==> r[i] == if s[i] == '\\' then '/' else s[i]
  {
    if s == "" then "" else ForwardSlashes(s[..|s| - 1]) + [if s[|s| - 1] == '\\' then '/' else s[|s| - 1]]
  }

  /** What follows the last slash. */
  function LastSegment(s: string): (r: string)
    ensures |r| <= |s| && r == s[|s| - |r|..] && '/' !in r
    ensures |r| < |s| ==> s[|s| - |r| - 1] == '/'
  {
    if s == "" || s[|s| - 1] == '/' then "" else LastSegment(s[..|s| - 1]) + [s[|s| - 1]]
  }

  /** `PurePosixPath(s).name`: the last component that is neither empty nor a single dot. */
  function PathName(s: string): (r: string)
    ensures '/' !in r && forall c :: c in r ==> c in s
    decreases |s|
  {
    var segment := LastSegment(s);
    if segment != "" && segment != "." then segment
    else if |segment| == |s| then ""
    else PathName(s[..|s| - |segment| - 1])
  }

  /** `safe_attachment_name`. */
  function SafeName(name: string): string {
    var cleaned := Strip(PathName(ForwardSlashes(name)));
    if cleaned == "" || cleaned == "." || cleaned == ".." then "attachment" else cleaned
  }

  /** A bare name: no way out of the folder it is stored in, nothing that stripping would change. */
  predicate Bare(name: string) {
    && name != "" && name != "." && name != ".."
    && '/' !in name && '\\' !in name && !White(name[0]) && !White(name[|name| - 1])
  }

  lemma NoBackslash(name: string)
    ensures '\\' !in ForwardSlashes(name)
  {
    var r := ForwardSlashes(name);
    forall i | 0 <= i < |r| ensures r[i] != '\\' {}
  }

  lemma Attachment()
    ensures Bare("attachment")
  {
    assert White("attachment"[0]) == false && White("attachment"[9]) == false;
  }

  lemma SafeBare(name: string)
    ensures Bare(SafeName(name))
  {
    Attachment();
    NoBackslash(name);
    hide White, Strip, PathName, ForwardSlashes;
  }

  lemma BareSafe(name: string)
    requires Bare(name)
    ensures SafeName(name) == name
  {
    assert ForwardSlashes(name) == name;
    BareSegment(name);
    hide White, Strip, PathName, ForwardSlashes;
  }

  /** Bare names are exactly the ones the reduction leaves alone, and it always yields one. */
  lemma SafeNames(name: string)
    ensures Bare(SafeName(name))
    ensures SafeName(name) == name <==> Bare(name)
    ensures SafeName(SafeName(name)) == SafeName(name)
  {
    SafeBare(name);
    BareSafe(SafeName(name));
    if Bare(name) {
      BareSafe(name);
    }
    hide Bare, SafeName;
  }

  lemma BareSegment(name: string)
    requires Bare(name)
    ensures PathName(name) == name
  {
    var segment := LastSegment(name);
    assert |segment| == |name|;
  }

  // ------------------------------------------------------------------------------ keeping them apart

  function Digits(n: nat): (s: string)
    ensures |s| > 0 && forall i :: 0 <= i < |s| ==> '0' <= s[i] <= '9'
  {
    (if n < 10 then "" else Digits(n / 10)) + ["0123456789"[n % 10]]
  }

  lemma {:induction false} DigitsDiffer(m: nat, n: nat)
    requires Digits(m) == Digits(n)
    ensures m == n
    decreases m
  {
    var a, b := Digits(m), Digits(n);
    assert a[|a| - 1] == "0123456789"[m % 10] && b[|b| - 1] == "0123456789"[n % 10];
    assert m % 10 == n % 10;
    if m >= 10 && n >= 10 {
      assert a[..|a| - 1] == Digits(m / 10) && b[..|b| - 1] == Digits(n / 10);
      DigitsDiffer(m / 10, n / 10);
    }
  }

  /** `rpartition(".")`: what stands before the last dot, and the rest with it. */
  function DotAt(name: string): (i: nat)
    ensures i <= |name|
    ensures i < |name| ==> name[i] == '.' && '.' !in name[i + 1..]
    ensures i == |name| ==> '.' !in name
  {
    if name == "" then 0
    else if name[|name| - 1] == '.' then |name| - 1
    else
      var i := DotAt(name[..|name| - 1]);
      if i == |name| - 1 then |name| else i
  }

  /** Candidate number `k` for a name already taken. */
  function Numbered(name: string, k: nat): string {
    name[..DotAt(name)] + "-" + Digits(k) + name[DotAt(name)..]
  }

  lemma NumberedDiffer(name: string, j: nat, k: nat)
    requires Numbered(name, j) == Numbered(name, k)
    ensures j == k
  {
    var at, a, b := DotAt(name), Numbered(name, j), Numbered(name, k);
    assert |a| == at + 1 + |Digits(j)| + (|name| - at) && |b| == at + 1 + |Digits(k)| + (|name| - at);
    assert a[at + 1..at + 1 + |Digits(j)|] == Digits(j);
    assert b[at + 1..at + 1 + |Digits(k)|] == Digits(k);
    DigitsDiffer(j, k);
  }

  /** A numbered bare name is bare. */
  lemma NumberedBare(name: string, k: nat)
    requires Bare(name)
    ensures Bare(Numbered(name, k))
  {
    var at, r := DotAt(name), Numbered(name, k);
    assert r[at] == '-' && !White('-');
    assert at > 0 ==> r[0] == name[0];
    assert at < |name| ==> r[|r| - 1] == name[|name| - 1];
    assert at == |name| ==> '0' <= r[|r| - 1] <= '9';
    forall i | 0 <= i < |r|
      ensures r[i] != '/' && r[i] != '\\'
    {
      if i < at {
        assert r[i] == name[i];
      } else if i > at + |Digits(k)| {
        assert r[i] == name[i - 1 - |Digits(k)|];
      }
    }
  }

  /** The taken names no candidate below `k` has hit. */
  ghost function Left(name: string, taken: set<string>, k: nat): set<string> {
    set t | t in taken && forall j :: 2 <= j < k ==> Numbered(name, j) != t
  }

  lemma LeftShrinks(name: string, taken: set<string>, k: nat)
    requires k >= 2 && Numbered(name, k) in taken
    ensures Left(name, taken, k + 1) < Left(name, taken, k)
  {
    forall j | 2 <= j < k
      ensures Numbered(name, j) != Numbered(name, k)
    {
      if Numbered(name, j) == Numbered(name, k) {
        NumberedDiffer(name, j, k);
      }
    }
    assert Numbered(name, k) in Left(name, taken, k) && Numbered(name, k) !in Left(name, taken, k + 1);
  }

  /** The first free candidate from number `k` on; the search ends because candidates differ. */
  function FirstFree(name: string, taken: set<string>, k: nat): (r: string)
    requires k >= 2
    ensures r !in taken
    decreases Left(name, taken, k)
  {
    if Numbered(name, k) !in taken then Numbered(name, k)
    else
      LeftShrinks(name, taken, k);
      FirstFree(name, taken, k + 1)
  }

  /** The name an attachment is stored under. */
  function UniqueOf(name: string, taken: set<string>): (r: string)
    ensures r !in taken
  {
    if name !in taken then name else FirstFree(name, taken, 2)
  }

  lemma {:induction false} FirstFreeBare(name: string, taken: set<string>, k: nat)
    requires Bare(name) && k >= 2
    ensures Bare(FirstFree(name, taken, k))
    decreases Left(name, taken, k)
  {
    hide Bare;
    NumberedBare(name, k);
    if Numbered(name, k) in taken {
      LeftShrinks(name, taken, k);
      FirstFreeBare(name, taken, k + 1);
    }
  }

  /** `_unique_name`: `taken` then holds the name chosen. */
  method UniqueName(name: string, taken: set<string>) returns (unique: string, after: set<string>)
    ensures unique == UniqueOf(name, taken) && after == taken + {unique}
  {
    if name !in taken {
      return name, taken + {name};
    }
    var index := 2;
    while Numbered(name, index) in taken
      invariant index >= 2
      invariant FirstFree(name, taken, index) == FirstFree(name, taken, 2)
      decreases Left(name, taken, index)
    {
      hide Left, Numbered;
      LeftShrinks(name, taken, index);
      index := index + 1;
    }
    unique := Numbered(name, index);
    after := taken + {unique};
  }

  // ----------------------------------------------------------------------------------- the bundle

  datatype Item = Item(name: string, data: seq<Byte>)

  datatype Mail = Mail(
    id: int, source: string, finalDest: string, subject: string, body: string, attachments: seq<Item>,
    priority: int, created: real, hops: seq<string>)

  datatype Manifest = Manifest(
    id: int, source: string, finalDest: string, subject: string, priority: int, created: real,
    hops: seq<string>, attachments: seq<string>)

  /** What one archive member holds, once decoded. */
  datatype Content = Index(manifest: Manifest) | Text(text: string) | Bytes(bytes: seq<Byte>)

  type Archive = seq<(string, Content)>

  /** The names the attachments are stored under, given the names taken before. */
  function StoredNames(items: seq<Item>, taken: set<string>): (names: seq<string>)
    ensures |names| == |items|
  {
    if items == [] then [] else
      var name := UniqueOf(SafeName(items[0].name), taken);
      [name] + StoredNames(items[1..], taken + {name})
  }

  function Members(names: seq<string>, items: seq<Item>): Archive
    requires |names| == |items|
  {
    if items == [] then [] else [("att/" + names[0], Bytes(items[0].data))] + Members(names[1..], items[1..])
  }

  /** `_bundle_entries`, in the order they are written. */
  function Entries(mail: Mail): Archive {
    var names := StoredNames(mail.attachments, {});
    [("manifest.json", Index(Manifest(mail.id, mail.source, mail.finalDest, mail.subject, mail.priority, mail.created,
                                      mail.hops, names))),
     ("body.txt", Text(mail.body))] + Members(names, mail.attachments)
  }

  /** Reading a member: the last one written under the name. */
  function Read(archive: Archive, name: string): Option<Content> {
    if archive == [] then None
    else if archive[|archive| - 1].0 == name then Some(archive[|archive| - 1].1)
    else Read(archive[..|archive| - 1], name)
  }

  /** The attachments a manifest names and the archive holds. */
  function Found(archive: Archive, names: seq<string>): seq<Item> {
    if names == [] then [] else FoundOne(archive, names[0]) + Found(archive, names[1..])
  }

  /** `from_bundle`; without a readable manifest it raises. */
  function Opened(archive: Archive): Option<Mail> {
    var index := Read(archive, "manifest.json");
    if index.None? || !index.value.Index? then None
    else
      var m := index.value.manifest;
      var body := Read(archive, "body.txt");
      Some(Mail(m.id, m.source, m.finalDest, m.subject,
                if body.Some? && body.value.Text? then body.value.text else "",
                Found(archive, m.attachments), m.priority, m.created, m.hops))
  }

  lemma StoredStep(items: seq<Item>, i: nat, taken: set<string>)
    requires i < |items|
    ensures var name := UniqueOf(SafeName(items[i].name), taken);
            StoredNames(items[i..], taken) == [name] + StoredNames(items[i + 1..], taken + {name})
  {
    hide UniqueOf, SafeName;
    assert items[i..][1..] == items[i + 1..];
  }

  /** What one name of the manifest yields. */
  function FoundOne(archive: Archive, name: string): seq<Item> {
    var safe := SafeName(name);
    var member := Read(archive, "att/" + safe);
    if member.Some? && member.value.Bytes? then [Item(safe, member.value.bytes)] else []
  }

  lemma FoundStep(archive: Archive, names: seq<string>, i: nat)
    requires i < |names|
    ensures Found(archive, names[i..]) == FoundOne(archive, names[i]) + Found(archive, names[i + 1..])
  {
    hide FoundOne;
    assert names[i..][1..] == names[i + 1..];
  }

  lemma StoredNone(taken: set<string>)
    ensures StoredNames([], taken) == []
  {
  }

  lemma FoundNone(archive: Archive)
    ensures Found(archive, []) == []
  {
  }

  /** The naming loop of `_bundle_entries`. */
  method NameAttachments(items: seq<Item>) returns (names: seq<string>)
    ensures names == StoredNames(items, {})
  {
    hide UniqueOf, SafeName, StoredNames;
    names := [];
    assert items[0..] == items;
    var taken: set<string> := {};
    var i := 0;
    while i < |items|
      invariant 0 <= i <= |items|
      invariant StoredNames(items, {}) == names + StoredNames(items[i..], taken)
    {
      StoredStep(items, i, taken);
      var name, after := UniqueName(SafeName(items[i].name), taken);
      names, taken, i := names + [name], after, i + 1;
    }
    assert items[i..] == [];
    StoredNone(taken);
  }

  method CollectOne(archive: Archive, name: string) returns (items: seq<Item>)
    ensures items == FoundOne(archive, name)
  {
    hide SafeName, Read;
    var safe := SafeName(name);
    var member := Read(archive, "att/" + safe);
    items := if member.Some? && member.value.Bytes? then [Item(safe, member.value.bytes)] else [];
  }

  /** The attachment loop of `from_bundle`. */
  method CollectAttachments(archive: Archive, named: seq<string>) returns (items: seq<Item>)
    ensures items == Found(archive, named)
  {
    hide Found, FoundOne;
    items := [];
    assert named[0..] == named;
    var i := 0;
    while i < |named|
      invariant 0 <= i <= |named|
      invariant Found(archive, named) == items + Found(archive, named[i..])
    {
      FoundStep(archive, named, i);
      var one := CollectOne(archive, named[i]);
      items := items + one;
      i := i + 1;
    }
    assert named[i..] == [];
    FoundNone(archive);
  }

  // ------------------------------------------------------------------------------------- round trip

  predicate Distinct(names: seq<string>) { forall i, j :: 0 <= i < j < |names| ==> names[i] != names[j] }

  predicate AllBare(names: seq<string>) { forall i :: 0 <= i < |names| ==> Bare(names[i]) }

  predicate Avoids(names: seq<string>, taken: set<string>) {
    forall i :: 0 <= i < |names| ==> names[i] !in taken
  }

  /** Distinct bare names that are free. */
  predicate Sound(names: seq<string>, taken: set<string>) {
    AllBare(names) && Distinct(names) && Avoids(names, taken)
  }

  lemma SoundCons(name: string, rest: seq<string>, taken: set<string>)
    ensures Sound([name] + rest, taken) <==> Bare(name) && name !in taken && Sound(rest, taken + {name})
  {
    hide Bare;
    var all := [name] + rest;
    assert all[0] == name && forall i :: 0 <= i < |rest| ==> all[i + 1] == rest[i];
    if Sound(all, taken) {
      assert forall i :: 0 <= i < |rest| ==> rest[i] == all[i + 1];
    }
  }

  /** Whatever the attachments are called, the stored names are bare, hence fixed points of the
      reduction, and no two are equal. */
  lemma {:induction false} StoredNamesSound(items: seq<Item>, taken: set<string>)
    ensures Sound(StoredNames(items, taken), taken)
    decreases |items|
  {
    if items != [] {
      StoredStep(items, 0, taken);
      assert items[0..] == items;
      hide Bare, UniqueOf, SafeName, StoredNames, Sound;
      var name := UniqueOf(SafeName(items[0].name), taken);
      UniqueBare(items[0].name, taken);
      StoredNamesSound(items[1..], taken + {name});
      SoundCons(name, StoredNames(items[1..], taken + {name}), taken);
    }
  }

  lemma UniqueBare(name: string, taken: set<string>)
    ensures Bare(UniqueOf(SafeName(name), taken))
  {
    SafeNames(name);
    hide Bare, SafeName;
    FirstFreeBare(SafeName(name), taken, 2);
  }

  predicate Named(items: seq<Item>, names: seq<string>) {
    |names| == |items| && forall i :: 0 <= i < |items| ==> items[i].name == names[i]
  }

  lemma NamedCons(items: seq<Item>, names: seq<string>)
    requires Named(items, names) && items != []
    ensures items[0].name == names[0] && Named(items[1..], names[1..]) && names == [names[0]] + names[1..]
  {
  }

  lemma KeptName(name: string, taken: set<string>)
    requires Bare(name) && name !in taken
    ensures UniqueOf(SafeName(name), taken) == name
  {
    SafeNames(name);
    hide Bare, SafeName;
  }

  /** Bare and distinct names that are free are kept as they are. */
  lemma {:induction false} BareNamesKept(items: seq<Item>, names: seq<string>, taken: set<string>)
    requires Named(items, names) && Sound(names, taken)
    ensures StoredNames(items, taken) == names
    decreases |items|
  {
    if items == [] {
      assert names == [];
    } else {
      hide Sound, StoredNames, Bare, Named, SafeName, UniqueOf;
      StoredStep(items, 0, taken);
      assert items[0..] == items;
      NamedCons(items, names);
      SoundCons(names[0], names[1..], taken);
      KeptName(names[0], taken);
      BareNamesKept(items[1..], names[1..], taken + {names[0]});
    }
  }

  lemma {:induction false} MembersAre(names: seq<string>, items: seq<Item>)
    requires |names| == |items|
    ensures |Members(names, items)| == |items|
    ensures forall i :: 0 <= i < |items| ==> Members(names, items)[i] == ("att/" + names[i], Bytes(items[i].data))
    decreases |items|
  {
    if items != [] {
      MembersAre(names[1..], items[1..]);
    }
  }

  /** A name that one member alone has reads as that member. */
  lemma {:induction false} ReadOnly(archive: Archive, i: nat)
    requires i < |archive| && forall j :: 0 <= j < |archive| && j != i ==> archive[j].0 != archive[i].0
    ensures Read(archive, archive[i].0) == Some(archive[i].1)
    decreases |archive|
  {
    if i < |archive| - 1 {
      ReadOnly(archive[..|archive| - 1], i);
    }
  }

  lemma MembersDistinct(a: string, b: string)
    ensures "att/" + a == "att/" + b ==> a == b
    ensures "att/" + a != "manifest.json" && "att/" + a != "body.txt"
  {
    assert ("att/" + a)[4..] == a && ("att/" + b)[4..] == b;
    assert ("att/" + a)[0] == 'a';
  }

  function EntryName(names: seq<string>, i: nat): string
    requires i < |names| + 2
  {
    if i == 0 then "manifest.json" else if i == 1 then "body.txt" else "att/" + names[i - 2]
  }

  lemma EntryNamesDiffer(names: seq<string>, i: nat, j: nat)
    requires Distinct(names) && i < |names| + 2 && j < |names| + 2 && i != j
    ensures EntryName(names, i) != EntryName(names, j)
  {
    MembersDistinct(if i >= 2 then names[i - 2] else "", if j >= 2 then names[j - 2] else "");
    MembersDistinct(if j >= 2 then names[j - 2] else "", "");
    assert "manifest.json"[0] == 'm' && "body.txt"[0] == 'b';
  }

  lemma EntryNamed(mail: Mail, i: nat)
    requires i < |Entries(mail)|
    ensures |Entries(mail)| == |mail.attachments| + 2
    ensures Entries(mail)[i].0 == EntryName(StoredNames(mail.attachments, {}), i)
  {
    MembersAre(StoredNames(mail.attachments, {}), mail.attachments);
    hide Members, StoredNames;
  }

  /** Every member of a bundle is found under its own name. */
  lemma EntryRead(mail: Mail, i: nat)
    requires i < |Entries(mail)|
    ensures Read(Entries(mail), Entries(mail)[i].0) == Some(Entries(mail)[i].1)
  {
    var names := StoredNames(mail.attachments, {});
    hide Entries, StoredNames, Read, EntryName, Bare;
    StoredNamesSound(mail.attachments, {});
    assert Distinct(names);
    EntryNamed(mail, i);
    forall j | 0 <= j < |Entries(mail)| && j != i
      ensures Entries(mail)[j].0 != Entries(mail)[i].0
    {
      EntryNamed(mail, j);
      EntryNamesDiffer(names, i, j);
    }
    ReadOnly(Entries(mail), i);
  }

  /** The attachments under their stored names. */
  function Renamed(names: seq<string>, items: seq<Item>): (r: seq<Item>)
    requires |names| == |items|
    ensures |r| == |items| && forall i :: 0 <= i < |items| ==> r[i] == Item(names[i], items[i].data)
  {
    seq(|items|, i requires 0 <= i < |items| => Item(names[i], items[i].data))
  }

  lemma AttachmentEntry(mail: Mail, k: nat)
    requires k < |mail.attachments|
    ensures |Entries(mail)| == |mail.attachments| + 2
    ensures Entries(mail)[k + 2] == ("att/" + StoredNames(mail.attachments, {})[k], Bytes(mail.attachments[k].data))
  {
    var names := StoredNames(mail.attachments, {});
    hide Members, StoredNames;
    MembersAre(names, mail.attachments);
    assert Entries(mail)[k + 2] == Members(names, mail.attachments)[k];
  }

  lemma FoundBare(archive: Archive, name: string, data: seq<Byte>)
    requires Bare(name) && Read(archive, "att/" + name) == Some(Bytes(data))
    ensures FoundOne(archive, name) == [Item(name, data)]
  {
    hide Bare, SafeName, Read;
    SafeNames(name);
  }

  /** Attachment `k` is found under its stored name. */
  lemma FoundAt(mail: Mail, k: nat)
    requires k < |mail.attachments|
    ensures var names := StoredNames(mail.attachments, {});
            FoundOne(Entries(mail), names[k]) == [Item(names[k], mail.attachments[k].data)]
  {
    hide Bare, StoredNames, Read, SafeName, Entries, FoundOne;
    var names := StoredNames(mail.attachments, {});
    StoredNamesSound(mail.attachments, {});
    AttachmentEntry(mail, k);
    EntryRead(mail, k + 2);
    FoundBare(Entries(mail), names[k], mail.attachments[k].data);
  }

  lemma {:induction false} FoundAll(mail: Mail, k: nat)
    requires k <= |mail.attachments|
    ensures var names := StoredNames(mail.attachments, {});
            Found(Entries(mail), names[k..]) == Renamed(names, mail.attachments)[k..]
    decreases |mail.attachments| - k
  {
    hide StoredNames, Entries, FoundOne, Renamed;
    var names := StoredNames(mail.attachments, {});
    var items := Renamed(names, mail.attachments);
    if k < |names| {
      FoundAt(mail, k);
      FoundStep(Entries(mail), names, k);
      FoundAll(mail, k + 1);
      assert items[k..] == [items[k]] + items[k + 1..];
    }
  }

  lemma OpenedIs(archive: Archive, m: Manifest, body: string)
    requires Read(archive, "manifest.json") == Some(Index(m)) && Read(archive, "body.txt") == Some(Text(body))
    ensures Opened(archive) == Some(Mail(m.id, m.source, m.finalDest, m.subject, body, Found(archive, m.attachments),
                                         m.priority, m.created, m.hops))
  {
    hide Read, Found;
  }

  /** Opening a bundle gives back the message: every field, and every attachment's data in order, under
      its stored name, however many names collided or tried to leave the folder. */
  lemma RoundTrip(mail: Mail)
    ensures var names := StoredNames(mail.attachments, {});
            Opened(Entries(mail)) == Some(mail.(attachments := Renamed(names, mail.attachments)))
  {
    hide Opened, Found, Read, StoredNames, Renamed, Entries;
    var names := StoredNames(mail.attachments, {});
    ManifestRead(mail);
    OpenedIs(Entries(mail), Manifest(mail.id, mail.source, mail.finalDest, mail.subject, mail.priority, mail.created,
                                     mail.hops, names), mail.body);
    FoundAll(mail, 0);
    assert names[0..] == names;
    assert Renamed(names, mail.attachments)[0..] == Renamed(names, mail.attachments);
  }

  lemma ManifestRead(mail: Mail)
    ensures Read(Entries(mail), "manifest.json")
            == Some(Index(Manifest(mail.id, mail.source, mail.finalDest, mail.subject, mail.priority, mail.created,
                                   mail.hops, StoredNames(mail.attachments, {}))))
    ensures Read(Entries(mail), "body.txt") == Some(Text(mail.body))
  {
    EntryRead(mail, 0);
    EntryRead(mail, 1);
    hide Read, StoredNames, Members;
  }

  lemma SameMembers(names: seq<string>, items: seq<Item>, others: seq<Item>)
    requires |names| == |items| == |others| && forall i :: 0 <= i < |items| ==> items[i].data == others[i].data
    ensures Members(names, items) == Members(names, others)
  {
    MembersAre(names, items);
    MembersAre(names, others);
    hide Members;
  }

  lemma RenamedStored(mail: Mail)
    ensures var names := StoredNames(mail.attachments, {});
            var items := Renamed(names, mail.attachments);
            StoredNames(items, {}) == names && Members(names, items) == Members(names, mail.attachments)
  {
    var names := StoredNames(mail.attachments, {});
    var items := Renamed(names, mail.attachments);
    hide StoredNames, Members, Sound, Renamed;
    StoredNamesSound(mail.attachments, {});
    assert Named(items, names);
    BareNamesKept(items, names, {});
    SameMembers(names, items, mail.attachments);
  }

  /** A message that has been through a bundle once is bundled the same way again. */
  lemma SecondBundleSame(mail: Mail)
    ensures var once := Opened(Entries(mail)); once.Some? && Entries(once.value) == Entries(mail)
  {
    RoundTrip(mail);
    RenamedStored(mail);
    hide Opened, StoredNames, Members, Renamed;
  }
}
