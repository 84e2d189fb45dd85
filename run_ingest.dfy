/**
 * The command-line ingester of scripts/run_ingest.py: the same document loop as `/api/ingest`, with
 * argparse defaults for the two directories and a one-line report instead of a JSON body.
 */
module RunIngest {
  import opened Wrappers
  import opened VectorFaiss
  import opened Config
  import opened Rag
  import opened IngestBatch
  import opened Api

  /** `--docs_dir` / `--index_dir` as given on the command line, if given. */
  datatype Flags = Flags(docsDir: Option<string>, indexDir: Option<string>)

  datatype Args = Args(docsDir: string, indexDir: string)

  /** argparse: an absent flag takes its default, a given one is kept even when it is empty. */
  function ParseArgs(flags: Flags, settings: Settings): (a: Args)
    ensures flags.docsDir.Some? ==> a.docsDir == flags.docsDir.value
    ensures flags.docsDir.None? ==> a.docsDir == DefaultDocsDir
    ensures flags.indexDir.Some? ==> a.indexDir == flags.indexDir.value
    ensures flags.indexDir.None? ==> a.indexDir == settings.indexDir
  {
    Args(if flags.docsDir.Some? then flags.docsDir.value else DefaultDocsDir,
         if flags.indexDir.Some? then flags.indexDir.value else settings.indexDir)
  }

  /**
   * The two entry points agree on every directory except the empty one: the HTTP handler replaces
   * "" by the default, the command line keeps it.
   */
  lemma DirectoryDefaultsAgree(flags: Flags, settings: Settings)
    ensures var a := ParseArgs(flags, settings);
            && (a.docsDir == OrDefault(flags.docsDir, DefaultDocsDir) <==> flags.docsDir != Some("") || DefaultDocsDir == "")
            && (a.indexDir == OrDefault(flags.indexDir, settings.indexDir) <==> flags.indexDir != Some("") || settings.indexDir == "")
  {
  }

  /** What the script prints. */
  datatype Report = NoDocumentsFound | AddedChunks(count: nat, indexDir: string)

  function ReportLine(r: Report): (line: string)
    ensures r.NoDocumentsFound? ==> line == "No documents found."
  {
    match r
    case NoDocumentsFound => "No documents found."
    case AddedChunks(n, dir) => "Added " + NatToString(n) + " chunks to index at " + dir
  }

  /** A report line with a count reads back as that count. */
  lemma ReportCountReadsBack(n: nat, dir: string)
    ensures var line := ReportLine(AddedChunks(n, dir));
            var digits := NatToString(n);
            && line[..6] == "Added "
            && line[6..6 + |digits|] == digits
            && ParseNat(line[6..6 + |digits|]) == n
  {
    ParseNatToString(n);
    var line := ReportLine(AddedChunks(n, dir));
    var digits := NatToString(n);
    assert line == ("Added " + digits) + (" chunks to index at " + dir);
    assert ("Added " + digits)[6..] == digits;
  }

  /** The count a report states: 0 for "No documents found.". */
  function ReportedCount(r: Result<Report, IndexError>): Result<nat, IndexError> {
    match r
    case Err(e) => Err(e)
    case Ok(NoDocumentsFound) => Ok(0)
    case Ok(AddedChunks(n, _)) => Ok(n)
  }

  /** `main()`: `listDocs` stands for `iter_docs`; the printed line is `ReportLine` of the result. */
  method Run(flags: Flags, settings: Settings, engine: Engine, disk: Disk, listDocs: string -> seq<Doc>)
    returns (r: Result<Report, IndexError>)
    modifies disk
    ensures var a := ParseArgs(flags, settings);
            && Ingested(old(disk.indexFiles), old(disk.metaFiles), disk.indexFiles, disk.metaFiles,
                        a.indexDir, settings.embeddingsProvider, engine, listDocs(a.docsDir), ReportedCount(r))
            && (r.Ok? && r.value.AddedChunks? ==> r.value.count > 0 && r.value.indexDir == a.indexDir)
  {
    var args := ParseArgs(flags, settings);
    var added := IngestDocuments(disk, args.indexDir, settings.embeddingsProvider, engine, listDocs(args.docsDir));
    if added.Err? {
      return Err(added.error);
    }
    if added.value == 0 {
      return Ok(NoDocumentsFound);
    }
    r := Ok(AddedChunks(added.value, args.indexDir));
  }
}
