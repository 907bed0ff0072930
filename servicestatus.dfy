/**
 * Normalising what `systemctl is-active <service>` prints into the three states
 * the manager reports.
 */
module ServiceStatus {
  import opened Text
  import opened Os

  datatype Status = Active | Inactive | Unknown

  /** The state a stripped answer names: `failed` counts as inactive, any other unknown
      word as unknown. */
  function WordStatus(word: string): (st: Status) {
    if word == "active" then Active
    else if word == "inactive" then Inactive
    else if word == "failed" then Inactive
    else Unknown
  }

  /** The state reported for a probe: the stripped standard output decides, the exit
      code is ignored, and a probe that raised (a timeout, a missing `systemctl`) gives
      unknown. */
  function StatusOf(probe: Outcome): (st: Status)
  {
    match probe
    case Raised(_) => Unknown
    case Completed(_, out, _) => WordStatus(Strip(out))
  }

  /** The mapping is total and exactly: `active` gives active, `inactive` or `failed`
      give inactive, anything else (or an exception) gives unknown. */
  lemma StatusCases(probe: Outcome)
    ensures StatusOf(probe) == Active <==> probe.Completed? && Strip(probe.stdout) == "active"
    ensures StatusOf(probe) == Inactive <==>
      probe.Completed? && (Strip(probe.stdout) == "inactive" || Strip(probe.stdout) == "failed")
    ensures StatusOf(probe) == Unknown <==>
      probe.Raised? || Strip(probe.stdout) !in {"active", "inactive", "failed"}
  {
  }

  /** Surrounding whitespace, such as the newline `systemctl` ends its answer with,
      does not change the state. */
  lemma StatusIgnoresPadding(code: int, pre: string, word: string, post: string, err: string)
    requires AllSpace(pre) && AllSpace(post)
    requires word == [] || (!IsSpace(word[0]) && !IsSpace(word[|word| - 1]))
    ensures StatusOf(Completed(code, pre + word + post, err)) == StatusOf(Completed(0, word, ""))
  {
    StripPadded(pre, word, post);
    assert [] + word + [] == word;
    StripPadded([], word, []);
  }

  /** The answer `systemctl` prints for a running unit reads as active. */
  lemma ActiveLine(code: int, err: string)
    ensures StatusOf(Completed(code, "active\n", err)) == Active
  {
    assert AllSpace("\n");
    assert [] + "active" + "\n" == "active\n";
    StripPadded([], "active", "\n");
  }
}
