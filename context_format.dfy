/**
 * `_format_context` and `build_context_from_files` in `context.py`: the context text handed to
 * the model, made of the source tree, the fetched URL text and one fenced block per readable file.
 */
module ContextFormat {
  import opened Wrappers
  import opened Strings
  import opened Paths
  import opened Files
  import opened SourceTree

  /**
   * The dictionary a context builder returns. `context.py` returns only "tree" and "context";
   * the builder in `scopes/builder.py` also hands back the list of files, which the agent session
   * reads under "files". `files == None` is a dictionary without that key.
   */
  datatype ContextObject = ContextObject(tree: string, context: string, files: Option<seq<Path>>)

  /** `BASE_TEMPLATE` after `textwrap.dedent`. */
  const BaseTemplate := "\nSource Tree:\n------------\n```\n{{source_tree}}\n```\n{{url_contents}}\nRelevant Files:\n---------------\n{{files_content}}\n"

  /** `fetch_and_process_urls(urls)`: the URL section, fetched over the network. */
  type UrlFetcher = seq<string> -> string

  /** One file as the context shows it. */
  function FileBlock(p: Path, content: string): string {
    "<file_path:" + p + ">\n```\n" + content + "\n```"
  }

  /** The blocks of the listed files that can be read (strictly, as UTF-8), in list order. */
  function FileBlocks(fs: FileSystem, paths: seq<Path>): (r: seq<string>)
    ensures |r| <= |paths|
    decreases |paths|
  {
    if paths == [] then []
    else
      var last := paths[|paths| - 1];
      FileBlocks(fs, paths[..|paths| - 1]) +
        (match ReadText(fs, last) case Some(c) => [FileBlock(last, c)] case None => [])
  }

  /** The three template substitutions, one after the other, as `str.replace` does them. */
  function Render(tree: string, urlText: string, files: string): string {
    var t1 := Replace(BaseTemplate, "{{source_tree}}", tree);
    var t2 := Replace(t1, "{{url_contents}}", urlText);
    Replace(t2, "{{files_content}}", files)
  }

  /** The context `_format_context(paths, urls, base)` builds. */
  function ContextOf(fs: FileSystem, fetch: UrlFetcher, paths: seq<Path>, urls: seq<string>, base: Path): ContextObject {
    var tree := SourceTreeText(base, paths);
    ContextObject(tree, Render(tree, fetch(urls), JoinWith("\n\n", FileBlocks(fs, paths))), None)
  }

  /** The loop of `_format_context` that collects one block per file it can read. */
  method FileContents(fs: FileSystem, paths: seq<Path>) returns (contents: seq<string>)
    ensures contents == FileBlocks(fs, paths)
  {
    contents := [];
    for i := 0 to |paths|
      invariant contents == FileBlocks(fs, paths[..i])
    {
      assert paths[..i + 1][..i] == paths[..i];
      var text := ReadText(fs, paths[i]);
      if text.Some? {
        contents := contents + [FileBlock(paths[i], text.value)];
      }
    }
    assert paths[..|paths|] == paths;
  }

  /**
   * `_format_context(file_paths, urls, base_path)`: a file that cannot be read is left out of the
   * files section but stays in the tree.
   */
  method FormatContext(fs: FileSystem, fetch: UrlFetcher, paths: seq<Path>, urls: seq<string>, base: Path)
    returns (r: ContextObject)
    ensures r == ContextOf(fs, fetch, paths, urls, base)
  {
    var tree := GenerateSourceTree(base, paths);
    var contents := FileContents(fs, paths);
    r := ContextObject(tree, Render(tree, fetch(urls), JoinWith("\n\n", contents)), None);
  }

  /** A list of files that can all be read shows every one of them, in order. */
  lemma {:induction false} AllReadable(fs: FileSystem, paths: seq<Path>)
    requires forall k :: 0 <= k < |paths| ==> ReadText(fs, paths[k]).Some?
    ensures |FileBlocks(fs, paths)| == |paths|
    ensures forall k :: 0 <= k < |paths| ==> FileBlocks(fs, paths)[k] == FileBlock(paths[k], ReadText(fs, paths[k]).value)
    decreases |paths|
  {
    if paths != [] {
      var init := paths[..|paths| - 1];
      AllReadable(fs, init);
      assert forall k :: 0 <= k < |init| ==> init[k] == paths[k];
    }
  }

  /** `build_context_from_files(file_paths, base_path)`: nothing for an empty list. */
  method BuildContextFromFiles(fs: FileSystem, fetch: UrlFetcher, paths: seq<Path>, base: Path)
    returns (r: Option<ContextObject>)
    ensures paths == [] <==> r.None?
    ensures r.Some? ==> r.value == ContextOf(fs, fetch, paths, [], base)
  {
    if paths == [] {
      return None;
    }
    var c := FormatContext(fs, fetch, paths, [], base);
    return Some(c);
  }
}
