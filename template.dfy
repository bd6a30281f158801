/** The default libcontainer configuration every container starts from: capability set,
    namespace set, cgroup parent and the optional AppArmor profile. */
module Template {

  datatype Cgroup = Cgroup(parent: string, allowAllDevices: bool, memory: int)

  /** The part of configs.Config the core reads or that the default profile fills in. */
  datatype Config = Config(
    capabilities: seq<string>,
    namespaces: seq<string>,
    cgroups: Cgroup,
    appArmorProfile: string)

  const DefaultCapabilities: seq<string> := [
    "CHOWN", "DAC_OVERRIDE", "FSETID", "FOWNER", "MKNOD", "NET_RAW", "SETGID", "SETUID",
    "SETFCAP", "SETPCAP", "NET_BIND_SERVICE", "SYS_CHROOT", "KILL", "AUDIT_WRITE"]

  const DefaultNamespaces: seq<string> := ["NEWNS", "NEWUTS", "NEWIPC", "NEWPID", "NEWNET"]

  predicate NoDuplicates(s: seq<string>)
  {
    forall i, j :: 0 <= i < j < |s| ==> s[i] != s[j]
  }

  /** Names that differ in length, first letter or fourth letter are different names. */
  predicate Distinguished(s: seq<string>)
  {
    && (forall i :: 0 <= i < |s| ==> |s[i]| >= 4)
    && (forall i, j :: 0 <= i < j < |s| ==> |s[i]| != |s[j]| || s[i][0] != s[j][0] || s[i][3] != s[j][3])
  }

  lemma DistinguishedDistinct(s: seq<string>)
    requires Distinguished(s)
    ensures NoDuplicates(s)
  {
  }

  lemma DefaultsDistinct()
    ensures NoDuplicates(DefaultCapabilities) && NoDuplicates(DefaultNamespaces)
  {
    assert Distinguished(DefaultCapabilities);
    DistinguishedDistinct(DefaultCapabilities);
  }

  /** template.New: whether AppArmor is enabled on the host is the one input. */
  function New(appArmorEnabled: bool): (c: Config)
    ensures c.capabilities == DefaultCapabilities
    ensures |c.capabilities| == 14 && NoDuplicates(c.capabilities)
    ensures c.namespaces == DefaultNamespaces && NoDuplicates(c.namespaces)
    ensures c.cgroups.parent == "docker" && !c.cgroups.allowAllDevices
    ensures c.cgroups.memory == 0
    ensures c.appArmorProfile == (if appArmorEnabled then "docker-default" else "")
  {
    DefaultsDistinct();
    var base := Config(DefaultCapabilities, DefaultNamespaces, Cgroup("docker", false, 0), "");
    if appArmorEnabled then base.(appArmorProfile := "docker-default") else base
  }
}
