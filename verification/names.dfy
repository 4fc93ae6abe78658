/** Names of snapshot files and of the archive's directories. */
module Names {
  import opened Dates

  const MANIFEST := "MANIFEST.tsv"

  /** The file Finder leaves in directories. */
  const DS_STORE := ".DS_Store"

  function LogName(date: string): string
  {
    "browser-visits-" + date + ".log"
  }

  predicate TwoDigits(s: string, i: nat)
  {
    i + 2 <= |s| && IsDigit(s[i]) && IsDigit(s[i + 1])
  }

  /** <date>T<hh>-<mm>-<ss>Z-<anything, on one line>. */
  predicate IsSnapshotName(f: string)
  {
    && |f| >= 22 && IsDateText(f[..10])
    && f[10] == 'T' && TwoDigits(f, 11) && f[13] == '-' && TwoDigits(f, 14) && f[16] == '-' && TwoDigits(f, 17)
    && f[19] == 'Z' && f[20] == '-' && '\n' !in f && '\r' !in f
  }

  /** The directory a snapshot belongs in. */
  function DateDir(root: string, f: string): string
  {
    root + "/" + if |f| >= 10 then f[..10] else f
  }

  /** Neither the manifest, nor a day's log, nor Finder's file looks like a
      snapshot, so no name is taken for two things. */
  lemma NamesDiffer(date: string)
    ensures !IsSnapshotName(MANIFEST) && !IsSnapshotName(DS_STORE) && !IsSnapshotName(LogName(date))
  {
    assert LogName(date)[0] == 'b';
  }
}
