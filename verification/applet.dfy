/** The applet descriptor: one record per utility the multi-call binary offers. */
module Applet {

  /** Where the installer links the applet: `[/usr]/[s]bin` or the root. */
  datatype InstallLoc = DirUsrSbin | DirUsrBin | DirSbin | DirBin | DirRoot

  /** The two calling conventions. A `CStyle` entry point takes
      `(argc, argv)` and returns an integer status; a `SafeStyle` entry point
      takes the borrowed argument list and never returns. The code itself is
      outside the model: `target` only names the function. */
  datatype Entrypoint = CStyle(target: string) | SafeStyle(target: string)

  /** The usage text, included from a file at build time and opaque here. */
  datatype Usage = UsageFile(path: string)

  /** One descriptor. `main` names the shared implementation, so several
      names may carry the same `main` (and entry point). */
  datatype Applet = Applet(
    name: string,
    main: string,
    entrypoint: Entrypoint,
    installLoc: InstallLoc,
    usage: Usage)

  /** A build feature flag, as named in `#[cfg(feature = "...")]`. */
  type Feature = string

  /** One conditional push of the table builder: the descriptor is added
      only when `feature` is enabled in the build. */
  datatype Candidate = Candidate(feature: Feature, applet: Applet)

  /** The descriptors of a candidate list, in source order, ignoring the
      feature flags. */
  function Applets(c: seq<Candidate>): (t: seq<Applet>)
    ensures |t| == |c|
    ensures forall i :: 0 <= i < |c| ==> t[i] == c[i].applet
  {
    seq(|c|, i requires 0 <= i < |c| => c[i].applet)
  }

  /** The descriptors of two joined candidate lists are the joined
      descriptors. */
  lemma AppletsConcat(a: seq<Candidate>, b: seq<Candidate>)
    ensures Applets(a + b) == Applets(a) + Applets(b)
  {
  }
}
