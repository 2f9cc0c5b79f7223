// The downloaded-files list (src/components/FilesPanel.tsx): the files state,
// seeded with three demonstration entries and shrunk by `deleteFile`, the
// name search over it, the per-type counts and the badge colour per type.

module FileList {
  import opened Types
  import Text
  import Lists

  /** A listed file; its `type` is one of the three asset formats. */
  datatype FileItem = FileItem(
    id: string,
    name: string,
    fileType: Format,
    size: nat,
    path: string,
    createdAt: string,
    associatedJob: Option<string>)

  /** The three entries the panel shows on mount; the timestamps are now, a day and two days earlier. */
  function MockFiles(now: string, dayBefore: string, twoDaysBefore: string): seq<FileItem> {
    [FileItem("1", "fantasy_character.glb", Glb, 2048576, "/downloads/fantasy_character.glb", now, Some("job_123")),
     FileItem("2", "dragon_sculpture.ply", Ply, 5242880, "/downloads/dragon_sculpture.ply", dayBefore, Some("job_124")),
     FileItem("3", "animation_preview.mp4", Mp4, 15728640, "/downloads/animation_preview.mp4", twoDaysBefore, Some("job_125"))]
  }

  predicate NameMatches(file: FileItem, searchTerm: string) {
    Text.Contains(Text.ToLower(file.name), Text.ToLower(searchTerm))
  }

  /** `filteredFiles`. */
  function FilteredFiles(files: seq<FileItem>, searchTerm: string): seq<FileItem> {
    Lists.Filter(files, (file: FileItem) => NameMatches(file, searchTerm))
  }

  /**
   * A file is listed exactly when its lower-cased name contains the
   * lower-cased term, as often as `files` holds it, in the order of
   * `files`; an empty term lists all.
   */
  lemma FilteredFilesSpec(files: seq<FileItem>, searchTerm: string)
    ensures forall f :: f in FilteredFiles(files, searchTerm) <==>
      f in files && Text.Contains(Text.ToLower(f.name), Text.ToLower(searchTerm))
    ensures Lists.IsSubsequence(FilteredFiles(files, searchTerm), files)
    ensures searchTerm == "" ==> FilteredFiles(files, searchTerm) == files
    ensures forall f: FileItem :: multiset(FilteredFiles(files, searchTerm))[f] ==
                                  (if NameMatches(f, searchTerm) then multiset(files)[f] else 0)
  {
    Lists.FilterIsSubsequence(files, (file: FileItem) => NameMatches(file, searchTerm));
    Lists.FilterCounts(files, (file: FileItem) => NameMatches(file, searchTerm));
    if searchTerm == "" {
      forall i | 0 <= i < |files| ensures NameMatches(files[i], searchTerm) {
        Text.ContainsEmpty(Text.ToLower(files[i].name));
      }
      Lists.FilterAll(files, (file: FileItem) => NameMatches(file, searchTerm));
    }
  }

  /** `prev.filter(f => f.id !== fileId)`. */
  function WithoutId(files: seq<FileItem>, fileId: string): seq<FileItem> {
    Lists.Filter(files, (f: FileItem) => f.id != fileId)
  }

  /**
   * Deleting removes every file carrying the id and keeps every other
   * entry, duplicates included, in its order; an id no file carries
   * changes nothing.
   */
  lemma WithoutIdSpec(files: seq<FileItem>, fileId: string)
    ensures forall f :: f in WithoutId(files, fileId) <==> f in files && f.id != fileId
    ensures Lists.IsSubsequence(WithoutId(files, fileId), files)
    ensures (forall i :: 0 <= i < |files| ==> files[i].id != fileId) ==> WithoutId(files, fileId) == files
    ensures (exists i :: 0 <= i < |files| && files[i].id == fileId) ==> |WithoutId(files, fileId)| < |files|
    ensures forall f: FileItem :: f.id != fileId ==> multiset(WithoutId(files, fileId))[f] == multiset(files)[f]
  {
    var keep := (f: FileItem) => f.id != fileId;
    Lists.FilterIsSubsequence(files, keep);
    Lists.FilterCounts(files, keep);
    if forall i :: 0 <= i < |files| ==> files[i].id != fileId {
      Lists.FilterAll(files, keep);
    }
    if exists i :: 0 <= i < |files| && files[i].id == fileId {
      var i :| 0 <= i < |files| && files[i].id == fileId;
      FilterDropsOne(files, keep, i);
    }
  }

  /** A filter that rejects some element is shorter than its list. */
  lemma {:induction false} FilterDropsOne<T(!new)>(s: seq<T>, p: T -> bool, i: int)
    requires 0 <= i < |s| && !p(s[i])
    ensures |Lists.Filter(s, p)| < |s|
  {
    if i > 0 && p(s[0]) {
      FilterDropsOne(s[1..], p, i - 1);
    }
  }

  function OfType(t: Format): FileItem -> bool {
    (f: FileItem) => f.fileType == t
  }

  /** `files.filter(f => f.type === t).length`. */
  function CountType(files: seq<FileItem>, t: Format): nat {
    |Lists.Filter(files, OfType(t))|
  }

  /** Every file has one of the three types, so the three counts add up to the number of files. */
  lemma {:induction false} CountsSum(files: seq<FileItem>)
    ensures CountType(files, Glb) + CountType(files, Ply) + CountType(files, Mp4) == |files|
  {
    if files != [] {
      CountsSum(files[1..]);
    }
  }

  /** The badge classes of `getFileTypeColor`. */
  function TypeColor(t: Format): string {
    match t
    case Glb => "bg-blue-500/20 text-blue-300 border-blue-500/30"
    case Ply => "bg-green-500/20 text-green-300 border-green-500/30"
    case Mp4 => "bg-purple-500/20 text-purple-300 border-purple-500/30"
  }

  /** Each type has a colour of its own. */
  lemma TypeColorsDistinct(s: Format, t: Format)
    ensures TypeColor(s) == TypeColor(t) <==> s == t
  {
    if s != t {
      assert |TypeColor(Glb)| < |TypeColor(Ply)| < |TypeColor(Mp4)|;
    }
  }

  lemma OneOfEach(files: seq<FileItem>, t: Format)
    requires |files| == 3 && files[0].fileType == Glb && files[1].fileType == Ply && files[2].fileType == Mp4
    ensures CountType(files, t) == 1
  {
    var p := OfType(t);
    assert files[1..][1..][1..] == [];
    assert |Lists.Filter(files[2..], p)| == if t == Mp4 then 1 else 0 by {
      assert files[2..][1..] == [];
    }
    assert files[1..][1..] == files[2..];
    assert |Lists.Filter(files[1..], p)| == if t == Glb then 0 else 1;
  }

  class FilesPanel {
    var files: seq<FileItem>

    /** The panel after its mount effect: the three demonstration files, one of each type. */
    constructor(now: string, dayBefore: string, twoDaysBefore: string)
      ensures files == MockFiles(now, dayBefore, twoDaysBefore)
      ensures forall t :: CountType(files, t) == 1
    {
      files := MockFiles(now, dayBefore, twoDaysBefore);
      new;
      forall t ensures CountType(files, t) == 1 {
        OneOfEach(files, t);
      }
    }

    /** `deleteFile`. */
    method DeleteFile(fileId: string)
      modifies this
      ensures files == WithoutId(old(files), fileId)
    {
      files := WithoutId(files, fileId);
    }
  }
}
