/**
 * The template store: text templates read from a prompts directory, trimmed
 * of surrounding whitespace and cached under a normalised file name until
 * the whole cache is dropped.
 *
 * The directory is an explicit argument of each lookup (the files it holds at
 * that moment), so a lookup's result can depend on it in compiled code; ghost
 * fields record what the cache was filled from and how often a file was opened.
 */
module Prompts {
  import opened Wrappers
  import opened Text

  /** A file that exists under the prompts directory: its text, or a failure to read or decode it. */
  datatype FileState = Readable(content: string) | Unreadable

  datatype PromptError =
    | DirectoryNotFound(dir: string)
    | FileNotFound(path: string)
    | ReadFailed(path: string)

  const Suffix := ".txt"

  /** A name without the `.txt` suffix gets it appended; a name with it is kept. */
  function NormalizeKey(fileName: string): (key: string)
    ensures EndsWith(key, Suffix)
    ensures |fileName| <= |key| && key[..|fileName|] == fileName
    ensures |key| == |fileName| + (if EndsWith(fileName, Suffix) then 0 else |Suffix|)
  {
    if EndsWith(fileName, Suffix) then fileName else fileName + Suffix
  }

  /** A normalised key is its own normal form. */
  lemma NormalizeKeyIdempotent(fileName: string)
    ensures NormalizeKey(NormalizeKey(fileName)) == NormalizeKey(fileName)
  {
  }

  /** A name and the same name with `.txt` appended share one cache slot. */
  lemma SuffixSharesSlot(fileName: string)
    requires !EndsWith(fileName, Suffix)
    ensures NormalizeKey(fileName + Suffix) == NormalizeKey(fileName)
  {
    var withSuffix := fileName + Suffix;
    assert withSuffix[|withSuffix| - |Suffix|..] == Suffix;
  }

  /** `prompts_dir / file_name`. */
  function FilePath(dir: string, fileName: string): string {
    dir + "/" + fileName
  }

  class PromptManager {
    const promptsDir: string
    const companyName: string
    var cache: map<string, string>
    /** The raw text each cached entry was read from. */
    ghost var readFrom: map<string, string>
    /** How many times a template file was opened. */
    ghost var diskReads: nat

    /** Every cached entry sits under a `.txt` key and is the stripped text it was read from. */
    ghost predicate Valid()
      reads this
    {
      && cache.Keys == readFrom.Keys
      && forall key :: key in cache ==> EndsWith(key, Suffix) && cache[key] == Strip(readFrom[key])
    }

    /** Every cached entry was read from the text the directory still holds under its key. */
    ghost predicate MatchesDisk(files: map<string, FileState>)
      reads this
    {
      forall key :: key in readFrom ==> key in files && files[key] == Readable(readFrom[key])
    }

    constructor (promptsDir: string, companyName: string)
      ensures Valid() && this.promptsDir == promptsDir && this.companyName == companyName
      ensures cache == map[] && diskReads == 0
    {
      this.promptsDir := promptsDir;
      this.companyName := companyName;
      cache := map[];
      readFrom := map[];
      diskReads := 0;
    }

    /** Construction: an empty cache, or an error when the directory does not exist. */
    static method Create(promptsDir: string, companyName: string, directoryExists: bool)
      returns (r: Result<PromptManager, PromptError>)
      ensures !directoryExists <==> r.Failure?
      ensures r.Failure? ==> r.error == DirectoryNotFound(promptsDir)
      ensures r.Success? ==> fresh(r.value) && r.value.Valid() && r.value.cache == map[]
                             && r.value.promptsDir == promptsDir && r.value.companyName == companyName
    {
      var manager := new PromptManager(promptsDir, companyName);
      if !directoryExists {
        return Failure(DirectoryNotFound(promptsDir));
      }
      return Success(manager);
    }

    /**
     * `manager[file_name]`: the cached text under the normalised key, or else the
     * stripped text of the file, which is then cached. A missing or unreadable
     * file is an error and leaves the cache as it was. Existing entries never change.
     */
    method GetItem(files: map<string, FileState>, fileName: string) returns (r: Result<string, PromptError>)
      requires Valid()
      modifies this`cache, this`readFrom, this`diskReads
      ensures Valid()
      ensures forall key :: key in old(cache) ==> key in cache && cache[key] == old(cache)[key]
      ensures old(MatchesDisk(files)) ==> MatchesDisk(files)
      ensures var key := NormalizeKey(fileName);
              if key in old(cache) then
                r == Success(old(cache)[key])
                && cache == old(cache) && readFrom == old(readFrom) && diskReads == old(diskReads)
              else if key !in files then
                r == Failure(FileNotFound(FilePath(promptsDir, key)))
                && cache == old(cache) && readFrom == old(readFrom) && diskReads == old(diskReads)
              else if files[key].Unreadable? then
                r == Failure(ReadFailed(FilePath(promptsDir, key)))
                && cache == old(cache) && readFrom == old(readFrom) && diskReads == old(diskReads) + 1
              else
                r == Success(Strip(files[key].content))
                && cache == old(cache)[key := Strip(files[key].content)]
                && readFrom == old(readFrom)[key := files[key].content]
                && diskReads == old(diskReads) + 1
    {
      var key := NormalizeKey(fileName);
      if key in cache {
        return Success(cache[key]);
      }
      if key !in files {
        return Failure(FileNotFound(FilePath(promptsDir, key)));
      }
      diskReads := diskReads + 1;
      match files[key] {
        case Unreadable =>
          return Failure(ReadFailed(FilePath(promptsDir, key)));
        case Readable(raw) =>
          var content := Strip(raw);
          cache := cache[key := content];
          readFrom := readFrom[key := raw];
          return Success(content);
      }
    }

    /** Drop every cached template. */
    method ReloadPrompts()
      requires Valid()
      modifies this`cache, this`readFrom
      ensures Valid() && cache == map[]
    {
      cache := map[];
      readFrom := map[];
    }
  }

  /** Two lookups of one name give equal text, and only the first can open the file. */
  method LookupTwice(manager: PromptManager, files: map<string, FileState>, fileName: string)
    returns (first: Result<string, PromptError>, second: Result<string, PromptError>)
    requires manager.Valid()
    modifies manager`cache, manager`readFrom, manager`diskReads
    ensures manager.Valid()
    ensures first == second
    ensures first.Success? ==> manager.diskReads <= old(manager.diskReads) + 1
  {
    first := manager.GetItem(files, fileName);
    ghost var readsAfterFirst := manager.diskReads;
    second := manager.GetItem(files, fileName);
    assert first.Success? ==> manager.diskReads == readsAfterFirst;
  }

  /** Looking a name up with and without the `.txt` suffix gives equal text. */
  method LookupWithAndWithoutSuffix(manager: PromptManager, files: map<string, FileState>, name: string)
    returns (withSuffix: Result<string, PromptError>, withoutSuffix: Result<string, PromptError>)
    requires manager.Valid() && !EndsWith(name, Suffix)
    modifies manager`cache, manager`readFrom, manager`diskReads
    ensures manager.Valid()
    ensures withSuffix == withoutSuffix
  {
    SuffixSharesSlot(name);
    withSuffix := manager.GetItem(files, name + Suffix);
    withoutSuffix := manager.GetItem(files, name);
  }

  /**
   * After a reload the next lookup opens the file again; when the cache agreed
   * with the directory beforehand, it returns the text the first lookup did.
   */
  method LookupReloadLookup(manager: PromptManager, files: map<string, FileState>, fileName: string)
    returns (before: Result<string, PromptError>, after: Result<string, PromptError>)
    requires manager.Valid()
    modifies manager`cache, manager`readFrom, manager`diskReads
    ensures manager.Valid()
    ensures old(manager.MatchesDisk(files)) && before.Success? ==> after == before
    ensures NormalizeKey(fileName) in files ==>
              manager.diskReads == old(manager.diskReads) + (if NormalizeKey(fileName) in old(manager.cache) then 1 else 2)
    ensures manager.cache.Keys <= {NormalizeKey(fileName)}
  {
    before := manager.GetItem(files, fileName);
    manager.ReloadPrompts();
    ghost var readsAtReload := manager.diskReads;
    after := manager.GetItem(files, fileName);
    assert NormalizeKey(fileName) in files ==> manager.diskReads == readsAtReload + 1;
  }
}
