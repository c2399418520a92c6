/**
 * The name under which a processed item is saved. The MD5 hex digest and the
 * `%Y%m%d_%H%M%S` time stamp come from outside, as a function and a string.
 */
module Utils {
  import opened Wrappers
  import opened Text
  import opened Seqs
  import opened Models

  const TitleLength: nat := 50
  const HashLength: nat := 8

  /** What a title character becomes in a file name: path separators turn into `_`. */
  function SafeChar(c: char): char {
    if c == '/' || c == '\\' then '_' else c
  }

  /** The first 50 characters of the title with every `/` and `\` replaced by `_`. */
  function SafeTitle(title: string): (r: string)
    ensures |r| == (if |title| <= TitleLength then |title| else TitleLength)
    ensures forall i :: 0 <= i < |r| ==> r[i] == SafeChar(title[i])
    ensures '/' !in r && '\\' !in r
  {
    ReplaceChar(ReplaceChar(SliceTo(title, TitleLength), '/', '_'), '\\', '_')
  }

  /** The digest input: title and id with nothing between them. */
  function HashInput(title: string, id: string): string {
    title + id
  }

  /** For one title, distinct ids give distinct digest inputs. */
  lemma HashInputSeparatesIds(title: string, id1: string, id2: string)
    requires HashInput(title, id1) == HashInput(title, id2)
    ensures id1 == id2
  {
    assert id1 == HashInput(title, id1)[|title|..];
    assert id2 == HashInput(title, id2)[|title|..];
  }

  /** The file name: time stamp, safe title and the first 8 digest characters, `_`-separated. */
  function FileName(timestamp: string, news: NewsItem, md5Hex: string -> string): string {
    timestamp + "_" + SafeTitle(news.title) + "_" + SliceTo(md5Hex(HashInput(news.title, news.id)), HashLength) + ".json"
  }

  /** The file name splits into its parts at known positions, so it ends in `.json`. */
  lemma FileNameParts(timestamp: string, news: NewsItem, md5Hex: string -> string)
    requires |md5Hex(HashInput(news.title, news.id))| == 32
    ensures var name := FileName(timestamp, news, md5Hex);
      var t := |timestamp| + 1 + |SafeTitle(news.title)| + 1;
      && |name| == t + HashLength + 5
      && name[..|timestamp|] == timestamp
      && name[|timestamp|] == '_' && name[t - 1] == '_'
      && name[|timestamp| + 1..t - 1] == SafeTitle(news.title)
      && name[t..t + HashLength] == md5Hex(HashInput(news.title, news.id))[..HashLength]
      && name[t + HashLength..] == ".json"
  {
  }

  /** Where a save goes: the directory and the file name. */
  datatype SaveTarget = SaveTarget(dir: string, fileName: string)

  /** `save_result_to_file`: nothing without a save directory, otherwise the file it writes. */
  function SaveResultToFile(p: ProcessedItem, saveDir: Option<string>, timestamp: string,
                            md5Hex: string -> string): (r: Option<SaveTarget>)
    ensures saveDir.None? <==> r.None?
    ensures r.Some? ==> r.value.dir == saveDir.value
    ensures r.Some? ==> r.value.fileName == FileName(timestamp, p.news, md5Hex)
  {
    match saveDir
    case None => None
    case Some(dir) => Some(SaveTarget(dir, FileName(timestamp, p.news, md5Hex)))
  }
}
