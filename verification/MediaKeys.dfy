/** Storage keys of uploads and of the tiers derived from them. */
module MediaKeys {
  import opened SyncModel
  import opened Decimals

  /** The canonical text of a uuid: 32 hexadecimal digits in groups of 8, 4, 4, 4 and 12. */
  function UuidText(u: Uuid): (s: string)
    ensures |s| == 36 && '/' !in s
  {
    Grouped(Hex(u as int, 32))
  }

  lemma UuidTextInjective(u: Uuid, v: Uuid)
    requires UuidText(u) == UuidText(v)
    ensures u == v
  {
    var h, k := Hex(u as int, 32), Hex(v as int, 32);
    GroupsDetermine(h, k);
    assert Power16(32) == 0x1_0000_0000_0000_0000_0000_0000_0000_0000 by {
      SixteenCubed();
    }
    HexInjective(u as int, v as int, 32);
  }

  lemma SixteenCubed()
    ensures Power16(32) == 0x1_0000_0000_0000_0000_0000_0000_0000_0000
  {
    assert Power16(8) == 0x1_0000_0000;
    assert Power16(16) == 0x1_0000_0000_0000_0000;
    assert Power16(24) == 0x1_0000_0000_0000_0000_0000_0000;
  }

  function Grouped(h: string): (s: string)
    requires |h| == 32
    ensures |s| == 36
  {
    h[..8] + "-" + h[8..12] + "-" + h[12..16] + "-" + h[16..20] + "-" + h[20..]
  }

  lemma GroupsDetermine(h: string, k: string)
    requires |h| == |k| == 32 && Grouped(h) == Grouped(k)
    ensures h == k
  {
    var s := Grouped(h);
    forall i | 0 <= i < 32
      ensures h[i] == k[i]
    {
      var j := if i < 8 then i else if i < 12 then i + 1 else if i < 16 then i + 2 else if i < 20 then i + 3 else i + 4;
      assert h[i] == s[j];
      assert k[i] == Grouped(k)[j];
    }
  }

  function OwnerText(t: OwnerType): string {
    match t
    case ProblemOwner => "problem"
    case InspectionOwner => "inspection"
    case ProjectOwner => "project"
    case UserOwner => "user"
    case UnknownOwner(text) => text
  }

  function TierText(t: Tier): string {
    match t
    case Original => "original"
    case Web => "web"
    case Thumb => "thumb"
    case UnknownTier(text) => text
  }

  /** The directory of one upload, without its final slash. */
  function UploadDir(t: OwnerType, owner: int, u: Uuid): string {
    "media/" + OwnerText(t) + "/" + Decimal(owner) + "/" + UuidText(u)
  }

  function OriginalKey(t: OwnerType, owner: int, u: Uuid): string {
    UploadDir(t, owner, u) + "/original.jpg"
  }

  /** strings.LastIndex(key, "/"): -1 when there is none. */
  function LastSlash(key: string): (i: int)
    ensures -1 <= i < |key|
  {
    if key == [] then -1
    else if key[|key| - 1] == '/' then |key| - 1
    else LastSlash(key[..|key| - 1])
  }

  function PrefixOf(key: string): string {
    key[..LastSlash(key) + 1]
  }

  function DeriveKey(key: string, tier: Tier): string {
    PrefixOf(key) + TierText(tier) + ".jpg"
  }

  // --- Splitting a key at its last slash --------------------------------------------------------

  lemma {:induction false} LastSlashOf(dir: string, file: string)
    requires '/' !in file
    ensures LastSlash(dir + "/" + file) == |dir|
  {
    var key := dir + "/" + file;
    if file == [] {
    } else {
      assert key[|key| - 1] == file[|file| - 1];
      assert key[..|key| - 1] == dir + "/" + file[..|file| - 1];
      LastSlashOf(dir, file[..|file| - 1]);
    }
  }

  lemma SplitAtLastSlash(dir: string, file: string, dir': string, file': string)
    requires '/' !in file && '/' !in file'
    requires dir + "/" + file == dir' + "/" + file'
    ensures dir == dir' && file == file'
  {
    LastSlashOf(dir, file);
    LastSlashOf(dir', file');
    var key := dir + "/" + file;
    assert dir == key[..|dir|] && file == key[|dir| + 1..];
    assert key == dir' + "/" + file';
    assert dir' == key[..|dir'|] && file' == key[|dir'| + 1..];
  }

  lemma DirDeterminesUuid(t: OwnerType, owner: int, u: Uuid, t': OwnerType, owner': int, u': Uuid)
    requires UploadDir(t, owner, u) == UploadDir(t', owner', u')
    ensures u == u'
  {
    var d, d' := UploadDir(t, owner, u), UploadDir(t', owner', u');
    assert UuidText(u) == d[|d| - 36..] && UuidText(u') == d'[|d'| - 36..];
    UuidTextInjective(u, u');
  }

  /** The tiers the worker derives. */
  predicate Derived(tier: Tier) {
    tier == Web || tier == Thumb
  }

  function FileOf(tier: Tier): string {
    TierText(tier) + ".jpg"
  }

  lemma FilesHaveNoSlash(tier: Tier)
    requires Derived(tier) || tier == Original
    ensures '/' !in FileOf(tier)
  {
  }

  lemma DeriveKeyIn(dir: string, tier: Tier)
    ensures DeriveKey(dir + "/original.jpg", tier) == dir + "/" + FileOf(tier)
  {
    var key := dir + "/original.jpg";
    assert key == dir + "/" + "original.jpg";
    LastSlashOf(dir, "original.jpg");
    assert PrefixOf(key) == dir + "/";
    assert dir + "/" + TierText(tier) + ".jpg" == dir + "/" + FileOf(tier);
  }

  /** A derived key names its tier's file in the upload's own directory. */
  lemma DeriveKeyOfOriginal(t: OwnerType, owner: int, u: Uuid, tier: Tier)
    ensures DeriveKey(OriginalKey(t, owner, u), tier) == UploadDir(t, owner, u) + "/" + FileOf(tier)
    ensures DeriveKey(OriginalKey(t, owner, u), Original) == OriginalKey(t, owner, u)
  {
    hide UploadDir, DeriveKey;
    var dir := UploadDir(t, owner, u);
    DeriveKeyIn(dir, tier);
    DeriveKeyIn(dir, Original);
    assert FileOf(Original) == "original.jpg";
    assert dir + "/" + "original.jpg" == OriginalKey(t, owner, u);
  }

  /** No two uploads share a key, whichever of the three tiers each is: keys of distinct uuids are
      distinct, and so are the keys of distinct tiers of one upload. */
  lemma KeysDisjoint(t: OwnerType, owner: int, u: Uuid, tier: Tier, t': OwnerType, owner': int, u': Uuid, tier': Tier)
    requires Derived(tier) || tier == Original
    requires Derived(tier') || tier' == Original
    requires DeriveKey(OriginalKey(t, owner, u), tier) == DeriveKey(OriginalKey(t', owner', u'), tier')
    ensures u == u' && tier == tier'
  {
    hide UploadDir, DeriveKey, OriginalKey, FileOf;
    DeriveKeyOfOriginal(t, owner, u, tier);
    DeriveKeyOfOriginal(t', owner', u', tier');
    FilesHaveNoSlash(tier);
    FilesHaveNoSlash(tier');
    SplitAtLastSlash(UploadDir(t, owner, u), FileOf(tier), UploadDir(t', owner', u'), FileOf(tier'));
    DirDeterminesUuid(t, owner, u, t', owner', u');
    FilesDistinct(tier, tier');
  }

  lemma FilesDistinct(tier: Tier, tier': Tier)
    requires Derived(tier) || tier == Original
    requires Derived(tier') || tier' == Original
    requires FileOf(tier) == FileOf(tier')
    ensures tier == tier'
  {
    assert FileOf(tier)[0] == TierText(tier)[0];
    assert FileOf(tier')[0] == TierText(tier')[0];
  }

  lemma OwnerTexts()
    ensures OwnerText(ProblemOwner) == "problem" && OwnerText(InspectionOwner) == "inspection"
    ensures OwnerText(ProjectOwner) == "project" && OwnerText(UserOwner) == "user"
  {
  }
}
