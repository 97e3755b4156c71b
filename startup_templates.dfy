/**
 * The master and node startup scripts of pkg/cloud/utils/setup_config.go,
 * line by line, and what they promise the rendering in postCreate: which
 * placeholder tokens each one carries and how often.
 *
 * Each script is assembled from named blocks of consecutive lines; blocks
 * that both scripts contain word for word are declared once. Every block
 * comes with a lemma stating that no double underscore occurs outside its
 * placeholders, which is all the rendering needs to know about fixed text.
 * Fixed lines are written as chunks split at spaces, before every
 * underscore and, inside a word longer than 28 characters, every 28
 * characters, which keeps those lemmas cheap.
 */
module StartupTemplates {
  import opened GoStrings
  import opened StartupScript

  /** The interpreter line and the shell options. (setup_config.go:4-6, 121-123) */
  const Shebang: seq<seq<string>> := [
    ["#!/bin/bash"],
    ["set -e"],
    ["set -x"]
  ]

  lemma ShebangClean()
    ensures Clean(Texts(Shebang)) && Holes(Texts(Shebang)) == []
  {
    assert Chunk("#!/bin/bash");
    assert Chunk("set -e");
    assert Chunk("set -x");
    TextsClean(Shebang);
  }

  /** Opens the subshell whose output is logged, and fixes the architecture. (setup_config.go:8-9, 124-125) */
  const Subshell: seq<seq<string>> := [
    ["("],
    ["ARCH=amd64"]
  ]

  lemma SubshellClean()
    ensures Clean(Texts(Subshell)) && Holes(Texts(Subshell)) == []
  {
    assert Chunk("(");
    assert Chunk("ARCH=amd64");
    TextsClean(Subshell);
  }

  /** The master's version. (setup_config.go:10-11) */
  const MasterVersion: seq<Line> := [
    Assign("VERSION", Version),
    Text(Concat(["CONTROL", "_PLANE", "_VERSION=${VERSION}"]))
  ]

  lemma MasterVersionClean()
    ensures Clean(MasterVersion) && Holes(MasterVersion) == [Version]
  {
    assert NoDoubleUnderscore("VERSION");
    assert Chunk("CONTROL");
    assert Chunk("_PLANE");
    assert Chunk("_VERSION=${VERSION}");
    ChunksClean(["CONTROL", "_PLANE", "_VERSION=${VERSION}"]);
  }

  /** The service and pod ranges, the kubelet version and the DNS domain. (setup_config.go:12-15) */
  const MasterNetwork: seq<Line> := [
    Assign("SERVICE_CIDR", ServiceCidr),
    Assign("POD_CIDR", PodCidr),
    Text(Concat(["KUBELET", "_VERSION=${VERSION}"])),
    Text(Concat(["CLUSTER", "_DNS", "_DOMAIN=cluster.local"]))
  ]

  lemma MasterNetworkClean()
    ensures Clean(MasterNetwork) && Holes(MasterNetwork) == [ServiceCidr, PodCidr]
  {
    assert NoDoubleUnderscore("SERVICE_CIDR");
    assert NoDoubleUnderscore("POD_CIDR");
    assert Chunk("KUBELET");
    assert Chunk("_VERSION=${VERSION}");
    ChunksClean(["KUBELET", "_VERSION=${VERSION}"]);
    assert Chunk("CLUSTER");
    assert Chunk("_DNS");
    assert Chunk("_DOMAIN=cluster.local");
    ChunksClean(["CLUSTER", "_DNS", "_DOMAIN=cluster.local"]);
  }

  /** The node's version. (setup_config.go:126-127) */
  const NodeVersion: seq<Line> := [
    Assign("VERSION", Version),
    Text(Concat(["KUBELET", "_VERSION=${VERSION}"]))
  ]

  lemma NodeVersionClean()
    ensures Clean(NodeVersion) && Holes(NodeVersion) == [Version]
  {
    assert NoDoubleUnderscore("VERSION");
    assert Chunk("KUBELET");
    assert Chunk("_VERSION=${VERSION}");
    ChunksClean(["KUBELET", "_VERSION=${VERSION}"]);
  }

  /** The service and pod ranges and the DNS domain. (setup_config.go:128-130) */
  const NodeNetwork: seq<Line> := [
    Assign("SERVICE_CIDR", ServiceCidr),
    Assign("POD_CIDR", PodCidr),
    Text(Concat(["CLUSTER", "_DNS", "_DOMAIN=cluster.local"]))
  ]

  lemma NodeNetworkClean()
    ensures Clean(NodeNetwork) && Holes(NodeNetwork) == [ServiceCidr, PodCidr]
  {
    assert NoDoubleUnderscore("SERVICE_CIDR");
    assert NoDoubleUnderscore("POD_CIDR");
    assert Chunk("CLUSTER");
    assert Chunk("_DNS");
    assert Chunk("_DOMAIN=cluster.local");
    ChunksClean(["CLUSTER", "_DNS", "_DOMAIN=cluster.local"]);
  }

  /** The instance's addresses, the bootstrap token, the API port and the machine name. (setup_config.go:16-20, 131-135) */
  const InstanceSettings: seq<Line> := [
    Text(Concat(["PRIVATEIP=$(hostname ", "-i)"])),
    Assign("PUBLICIP", PublicIp),
    Assign("TOKEN", ClusterToken),
    Text(Concat(["PORT=6443"])),
    Assign("MACHINE", MachineId)
  ]

  lemma InstanceSettingsClean()
    ensures Clean(InstanceSettings) && Holes(InstanceSettings) == [PublicIp, ClusterToken, MachineId]
  {
    assert Chunk("PRIVATEIP=$(hostname ");
    assert Chunk("-i)");
    ChunksClean(["PRIVATEIP=$(hostname ", "-i)"]);
    assert NoDoubleUnderscore("PUBLICIP");
    assert NoDoubleUnderscore("TOKEN");
    assert Chunk("PORT=6443");
    ChunksClean(["PORT=6443"]);
    assert NoDoubleUnderscore("MACHINE");
  }

  /** The master's internal address. (setup_config.go:136) */
  const MasterAddress: seq<Line> := [
    Assign("MASTER", MasterIp)
  ]

  lemma MasterAddressClean()
    ensures Clean(MasterAddress) && Holes(MasterAddress) == [MasterIp]
  {
    assert NoDoubleUnderscore("MASTER");
  }

  /** Trusts the Kubernetes package key and creates the sources file. (setup_config.go:22-23) */
  const KubernetesAptKey: seq<seq<string>> := [
    ["curl -s ", "https://packages.cloud.googl", "e.com/apt/doc/apt-key.gpg ", "| sudo apt-key add -"],
    ["touch ", "/etc/apt/sources.list.d/kube", "rnetes.list"]
  ]

  lemma KubernetesAptKeyClean()
    ensures Clean(Texts(KubernetesAptKey)) && Holes(Texts(KubernetesAptKey)) == []
  {
    assert Chunk("curl -s ");
    assert Chunk("https://packages.cloud.googl");
    assert Chunk("e.com/apt/doc/apt-key.gpg ");
    assert Chunk("| sudo apt-key add -");
    assert Chunk("touch ");
    assert Chunk("/etc/apt/sources.list.d/kube");
    assert Chunk("rnetes.list");
    TextsClean(KubernetesAptKey);
  }

  /** Lists the Kubernetes package repository. (setup_config.go:24-25) */
  const KubernetesAptSource: seq<seq<string>> := [
    ["sh -c 'echo \"deb ", "http://apt.kubernetes.io/ ", "kubernetes-xenial ", "main\" > ", "/etc/apt/sources.list.d/kube", "rnetes.list'"],
    ["apt-get update -y"]
  ]

  lemma KubernetesAptSourceClean()
    ensures Clean(Texts(KubernetesAptSource)) && Holes(Texts(KubernetesAptSource)) == []
  {
    assert Chunk("sh -c 'echo \"deb ");
    assert Chunk("http://apt.kubernetes.io/ ");
    assert Chunk("kubernetes-xenial ");
    assert Chunk("main\" > ");
    assert Chunk("/etc/apt/sources.list.d/kube");
    assert Chunk("rnetes.list'");
    assert Chunk("apt-get update -y");
    TextsClean(KubernetesAptSource);
  }

  /** Installs the tools the master script needs. (setup_config.go:26-31) */
  const MasterPackages: seq<seq<string>> := [
    ["apt-get install -y \\"],
    ["  socat \\"],
    ["  ebtables \\"],
    ["  ", "apt-transport-https ", "\\"],
    ["  cloud-utils \\"],
    ["  prips"]
  ]

  lemma MasterPackagesClean()
    ensures Clean(Texts(MasterPackages)) && Holes(Texts(MasterPackages)) == []
  {
    assert Chunk("apt-get install -y \\");
    assert Chunk("  socat \\");
    assert Chunk("  ebtables \\");
    assert Chunk("  ");
    assert Chunk("apt-transport-https ");
    assert Chunk("\\");
    assert Chunk("  cloud-utils \\");
    assert Chunk("  prips");
    TextsClean(MasterPackages);
  }

  /** Opens the Docker installation function and blocks service start-up. (setup_config.go:33-35, 145-147) */
  const DockerFunctionOpen: seq<seq<string>> := [
    ["function install", "_configure", "_docker () {"],
    ["    # prevent ", "docker from ", "auto-starting"],
    ["    echo \"exit 101\" ", "> ", "/usr/sbin/policy-rc.d"]
  ]

  lemma DockerFunctionOpenClean()
    ensures Clean(Texts(DockerFunctionOpen)) && Holes(Texts(DockerFunctionOpen)) == []
  {
    assert Chunk("function install");
    assert Chunk("_configure");
    assert Chunk("_docker () {");
    assert Chunk("    # prevent ");
    assert Chunk("docker from ");
    assert Chunk("auto-starting");
    assert Chunk("    echo \"exit 101\" ");
    assert Chunk("> ");
    assert Chunk("/usr/sbin/policy-rc.d");
    TextsClean(DockerFunctionOpen);
  }

  /** Installs Docker with start-up blocked. (setup_config.go:36-38, 148-150) */
  const DockerInstall: seq<seq<string>> := [
    ["    chmod +x ", "/usr/sbin/policy-rc.d"],
    ["    trap \"rm ", "/usr/sbin/policy-rc.d\" ", "RETURN"],
    ["    apt-get install ", "-y docker.io"]
  ]

  lemma DockerInstallClean()
    ensures Clean(Texts(DockerInstall)) && Holes(Texts(DockerInstall)) == []
  {
    assert Chunk("    chmod +x ");
    assert Chunk("/usr/sbin/policy-rc.d");
    assert Chunk("    trap \"rm ");
    assert Chunk("/usr/sbin/policy-rc.d\" ");
    assert Chunk("RETURN");
    assert Chunk("    apt-get install ");
    assert Chunk("-y docker.io");
    TextsClean(DockerInstall);
  }

  /** Turns off Docker's iptables and masquerading and reloads systemd. (setup_config.go:39-40, 151-152) */
  const DockerOptions: seq<seq<string>> := [
    ["    echo 'DOCKER", "_OPTS=\"--iptables=false ", "--ip-masq=false\"' > ", "/etc/default/docker"],
    ["    systemctl ", "daemon-reload"]
  ]

  lemma DockerOptionsClean()
    ensures Clean(Texts(DockerOptions)) && Holes(Texts(DockerOptions)) == []
  {
    assert Chunk("    echo 'DOCKER");
    assert Chunk("_OPTS=\"--iptables=false ");
    assert Chunk("--ip-masq=false\"' > ");
    assert Chunk("/etc/default/docker");
    assert Chunk("    systemctl ");
    assert Chunk("daemon-reload");
    TextsClean(DockerOptions);
  }

  /** Starts Docker, closes the function and calls it. (setup_config.go:41-44, 153-156) */
  const DockerStart: seq<seq<string>> := [
    ["    systemctl ", "enable docker"],
    ["    systemctl start ", "docker"],
    ["}"],
    ["install", "_configure", "_docker"]
  ]

  lemma DockerStartClean()
    ensures Clean(Texts(DockerStart)) && Holes(Texts(DockerStart)) == []
  {
    assert Chunk("    systemctl ");
    assert Chunk("enable docker");
    assert Chunk("    systemctl start ");
    assert Chunk("docker");
    assert Chunk("}");
    assert Chunk("install");
    assert Chunk("_configure");
    assert Chunk("_docker");
    TextsClean(DockerStart);
  }

  /** Picks the cluster DNS address from the service range. (setup_config.go:46-47, 181-182) */
  const DnsServer: seq<seq<string>> := [
    ["# kubeadm uses 10th ", "IP as DNS server"],
    ["CLUSTER", "_DNS", "_SERVER=$(prips ", "${SERVICE", "_CIDR} | head -n 11 ", "| tail -n 1)"]
  ]

  lemma DnsServerClean()
    ensures Clean(Texts(DnsServer)) && Holes(Texts(DnsServer)) == []
  {
    assert Chunk("# kubeadm uses 10th ");
    assert Chunk("IP as DNS server");
    assert Chunk("CLUSTER");
    assert Chunk("_DNS");
    assert Chunk("_SERVER=$(prips ");
    assert Chunk("${SERVICE");
    assert Chunk("_CIDR} | head -n 11 ");
    assert Chunk("| tail -n 1)");
    TextsClean(DnsServer);
  }

  /** Explains the package version search: first line. (setup_config.go:48, 165) */
  const VersionSearchNote: seq<seq<string>> := [
    ["# Our Debian ", "packages have ", "versions like ", "\"1.8.0-00\" or ", "\"1.8.0-01\". Do a ", "prefix"]
  ]

  lemma VersionSearchNoteClean()
    ensures Clean(Texts(VersionSearchNote)) && Holes(Texts(VersionSearchNote)) == []
  {
    assert Chunk("# Our Debian ");
    assert Chunk("packages have ");
    assert Chunk("versions like ");
    assert Chunk("\"1.8.0-00\" or ");
    assert Chunk("\"1.8.0-01\". Do a ");
    assert Chunk("prefix");
    TextsClean(VersionSearchNote);
  }

  /** Explains the package version search: second line. (setup_config.go:49, 166) */
  const VersionSearchNoteEnd: seq<seq<string>> := [
    ["# search based on ", "our SemVer to find ", "the right (newest) ", "package version."]
  ]

  lemma VersionSearchNoteEndClean()
    ensures Clean(Texts(VersionSearchNoteEnd)) && Holes(Texts(VersionSearchNoteEnd)) == []
  {
    assert Chunk("# search based on ");
    assert Chunk("our SemVer to find ");
    assert Chunk("the right (newest) ");
    assert Chunk("package version.");
    TextsClean(VersionSearchNoteEnd);
  }

  /** The package version search, indented with spaces: first half. (setup_config.go:50-53) */
  const MasterGetVersion: seq<seq<string>> := [
    ["function ", "getversion() {"],
    ["    name=$1"],
    ["    prefix=$2"],
    ["    ", "version=$(apt-cache ", "madison $name | awk ", "'{ print $3 }' | ", "grep ^$prefix | ", "head -n1)"]
  ]

  lemma MasterGetVersionClean()
    ensures Clean(Texts(MasterGetVersion)) && Holes(Texts(MasterGetVersion)) == []
  {
    assert Chunk("function ");
    assert Chunk("getversion() {");
    assert Chunk("    name=$1");
    assert Chunk("    prefix=$2");
    assert Chunk("    ");
    assert Chunk("version=$(apt-cache ");
    assert Chunk("madison $name | awk ");
    assert Chunk("'{ print $3 }' | ");
    assert Chunk("grep ^$prefix | ");
    assert Chunk("head -n1)");
    TextsClean(MasterGetVersion);
  }

  /** The package version search, second half. (setup_config.go:54-59) */
  const MasterGetVersionEnd: seq<seq<string>> := [
    ["    if [[ -z ", "\"$version\" ]]; then"],
    ["        echo Can\\'t ", "find package $name ", "with prefix $prefix"],
    ["        exit 1"],
    ["    fi"],
    ["    echo $version"],
    ["}"]
  ]

  lemma MasterGetVersionEndClean()
    ensures Clean(Texts(MasterGetVersionEnd)) && Holes(Texts(MasterGetVersionEnd)) == []
  {
    assert Chunk("    if [[ -z ");
    assert Chunk("\"$version\" ]]; then");
    assert Chunk("        echo Can\\'t ");
    assert Chunk("find package $name ");
    assert Chunk("with prefix $prefix");
    assert Chunk("        exit 1");
    assert Chunk("    fi");
    assert Chunk("    echo $version");
    assert Chunk("}");
    TextsClean(MasterGetVersionEnd);
  }

  /** Resolves the kubelet and kubeadm package versions. (setup_config.go:60-61, 177-178) */
  const PackageVersions: seq<seq<string>> := [
    ["KUBELET=$(getversion ", "kubelet ${KUBELET", "_VERSION}-)"],
    ["KUBEADM=$(getversion ", "kubeadm ${KUBELET", "_VERSION}-)"]
  ]

  lemma PackageVersionsClean()
    ensures Clean(Texts(PackageVersions)) && Holes(Texts(PackageVersions)) == []
  {
    assert Chunk("KUBELET=$(getversion ");
    assert Chunk("kubelet ${KUBELET");
    assert Chunk("_VERSION}-)");
    assert Chunk("KUBEADM=$(getversion ");
    assert Chunk("kubeadm ${KUBELET");
    assert Chunk("_VERSION}-)");
    TextsClean(PackageVersions);
  }

  /** Installs kubelet and kubeadm. (setup_config.go:62-65) */
  const MasterInstall: seq<seq<string>> := [
    ["apt-get install -y \\"],
    ["    ", "kubelet=${KUBELET} \\"],
    ["    ", "kubeadm=${KUBEADM}"],
    ["chmod a+rx ", "/usr/bin/kubeadm"]
  ]

  lemma MasterInstallClean()
    ensures Clean(Texts(MasterInstall)) && Holes(Texts(MasterInstall)) == []
  {
    assert Chunk("apt-get install -y \\");
    assert Chunk("    ");
    assert Chunk("kubelet=${KUBELET} \\");
    assert Chunk("    ");
    assert Chunk("kubeadm=${KUBEADM}");
    assert Chunk("chmod a+rx ");
    assert Chunk("/usr/bin/kubeadm");
    TextsClean(MasterInstall);
  }

  /** A commented-out function. (setup_config.go:67-70) */
  const CleanMasterNote: seq<seq<string>> := [
    ["# function ", "cleanMaster() {"],
    ["#"],
    ["# }"],
    [""]
  ]

  lemma CleanMasterNoteClean()
    ensures Clean(Texts(CleanMasterNote)) && Holes(Texts(CleanMasterNote)) == []
  {
    assert Chunk("# function ");
    assert Chunk("cleanMaster() {");
    assert Chunk("#");
    assert Chunk("# }");
    assert Chunk("");
    TextsClean(CleanMasterNote);
  }

  /** Explains the kubelet arguments that follow. (setup_config.go:71-72, 183-184) */
  const KubeletArgsNote: seq<seq<string>> := [
    ["# Override network ", "args to use kubenet ", "instead of cni, ", "override Kubelet ", "DNS args and"],
    ["# add cloud ", "provider args."]
  ]

  lemma KubeletArgsNoteClean()
    ensures Clean(Texts(KubeletArgsNote)) && Holes(Texts(KubeletArgsNote)) == []
  {
    assert Chunk("# Override network ");
    assert Chunk("args to use kubenet ");
    assert Chunk("instead of cni, ");
    assert Chunk("override Kubelet ");
    assert Chunk("DNS args and");
    assert Chunk("# add cloud ");
    assert Chunk("provider args.");
    TextsClean(KubeletArgsNote);
  }

  /** Starts the kubelet defaults file with the network plugin. (setup_config.go:73-74, 185-186) */
  const KubeletNetwork: seq<seq<string>> := [
    ["cat > ", "/etc/default/kubelet ", "<<EOF"],
    ["KUBELET", "_EXTRA", "_ARGS=\"--network-plugin=kube", "net\""]
  ]

  lemma KubeletNetworkClean()
    ensures Clean(Texts(KubeletNetwork)) && Holes(Texts(KubeletNetwork)) == []
  {
    assert Chunk("cat > ");
    assert Chunk("/etc/default/kubelet ");
    assert Chunk("<<EOF");
    assert Chunk("KUBELET");
    assert Chunk("_EXTRA");
    assert Chunk("_ARGS=\"--network-plugin=kube");
    assert Chunk("net\"");
    TextsClean(KubeletNetwork);
  }

  /** Adds the DNS arguments and closes the defaults file. (setup_config.go:75-76, 187-188) */
  const KubeletDns: seq<seq<string>> := [
    ["KUBELET", "_EXTRA", "_ARGS+=\" ", "--cluster-dns=${CLUSTER", "_DNS", "_SERVER} ", "--cluster-domain=${CLUSTER", "_DNS", "_DOMAIN}\""],
    ["EOF"]
  ]

  lemma KubeletDnsClean()
    ensures Clean(Texts(KubeletDns)) && Holes(Texts(KubeletDns)) == []
  {
    assert Chunk("KUBELET");
    assert Chunk("_EXTRA");
    assert Chunk("_ARGS+=\" ");
    assert Chunk("--cluster-dns=${CLUSTER");
    assert Chunk("_DNS");
    assert Chunk("_SERVER} ");
    assert Chunk("--cluster-domain=${CLUSTER");
    assert Chunk("_DNS");
    assert Chunk("_DOMAIN}\"");
    assert Chunk("EOF");
    TextsClean(KubeletDns);
  }

  /** Restarts the kubelet. (setup_config.go:77-78, 189-190) */
  const KubeletRestart: seq<seq<string>> := [
    ["systemctl ", "daemon-reload"],
    ["systemctl restart ", "kubelet.service"]
  ]

  lemma KubeletRestartClean()
    ensures Clean(Texts(KubeletRestart)) && Holes(Texts(KubeletRestart)) == []
  {
    assert Chunk("systemctl ");
    assert Chunk("daemon-reload");
    assert Chunk("systemctl restart ");
    assert Chunk("kubelet.service");
    TextsClean(KubeletRestart);
  }

  /** Starts the kubeadm configuration file. (setup_config.go:80-81) */
  const KubeadmConfigOpen: seq<seq<string>> := [
    ["# Set up kubeadm ", "config file to pass ", "parameters to ", "kubeadm init."],
    ["cat > ", "/etc/kubernetes/kubeadm", "_config.yaml <<EOF"]
  ]

  lemma KubeadmConfigOpenClean()
    ensures Clean(Texts(KubeadmConfigOpen)) && Holes(Texts(KubeadmConfigOpen)) == []
  {
    assert Chunk("# Set up kubeadm ");
    assert Chunk("config file to pass ");
    assert Chunk("parameters to ");
    assert Chunk("kubeadm init.");
    assert Chunk("cat > ");
    assert Chunk("/etc/kubernetes/kubeadm");
    assert Chunk("_config.yaml <<EOF");
    TextsClean(KubeadmConfigOpen);
  }

  /** The configuration's API version and kind. (setup_config.go:82-84) */
  const KubeadmConfigKind: seq<seq<string>> := [
    ["apiVersion: ", "kubeadm.k8s.io/v1alpha2"],
    ["kind: ", "MasterConfiguration"],
    ["api:"]
  ]

  lemma KubeadmConfigKindClean()
    ensures Clean(Texts(KubeadmConfigKind)) && Holes(Texts(KubeadmConfigKind)) == []
  {
    assert Chunk("apiVersion: ");
    assert Chunk("kubeadm.k8s.io/v1alpha2");
    assert Chunk("kind: ");
    assert Chunk("MasterConfiguration");
    assert Chunk("api:");
    TextsClean(KubeadmConfigKind);
  }

  /** The API endpoint and the service subnet. (setup_config.go:85-88) */
  const KubeadmConfigApi: seq<seq<string>> := [
    ["  advertiseAddress: ", "${PUBLICIP}"],
    ["  bindPort: ${PORT}"],
    ["networking:"],
    ["  serviceSubnet: ", "${SERVICE", "_CIDR}"]
  ]

  lemma KubeadmConfigApiClean()
    ensures Clean(Texts(KubeadmConfigApi)) && Holes(Texts(KubeadmConfigApi)) == []
  {
    assert Chunk("  advertiseAddress: ");
    assert Chunk("${PUBLICIP}");
    assert Chunk("  bindPort: ${PORT}");
    assert Chunk("networking:");
    assert Chunk("  serviceSubnet: ");
    assert Chunk("${SERVICE");
    assert Chunk("_CIDR}");
    TextsClean(KubeadmConfigApi);
  }

  /** The control plane version and the certificate names. (setup_config.go:89-92) */
  const KubeadmConfigSans: seq<seq<string>> := [
    ["kubernetesVersion: ", "v${CONTROL", "_PLANE", "_VERSION}"],
    ["apiServerCertSANs:"],
    ["- ${PUBLICIP}"],
    ["- ${PRIVATEIP}"]
  ]

  lemma KubeadmConfigSansClean()
    ensures Clean(Texts(KubeadmConfigSans)) && Holes(Texts(KubeadmConfigSans)) == []
  {
    assert Chunk("kubernetesVersion: ");
    assert Chunk("v${CONTROL");
    assert Chunk("_PLANE");
    assert Chunk("_VERSION}");
    assert Chunk("apiServerCertSANs:");
    assert Chunk("- ${PUBLICIP}");
    assert Chunk("- ${PRIVATEIP}");
    TextsClean(KubeadmConfigSans);
  }

  /** The bootstrap token and the API server arguments. (setup_config.go:93-98) */
  const KubeadmConfigToken: seq<seq<string>> := [
    ["bootstrapTokens:"],
    ["- groups:"],
    ["  - ", "system:bootstrappers:kubeadm", ":default-node-token"],
    ["  token: ${TOKEN}"],
    ["apiServerExtraArgs:"],
    ["  cloud-provider: ", "cce"]
  ]

  lemma KubeadmConfigTokenClean()
    ensures Clean(Texts(KubeadmConfigToken)) && Holes(Texts(KubeadmConfigToken)) == []
  {
    assert Chunk("bootstrapTokens:");
    assert Chunk("- groups:");
    assert Chunk("  - ");
    assert Chunk("system:bootstrappers:kubeadm");
    assert Chunk(":default-node-token");
    assert Chunk("  token: ${TOKEN}");
    assert Chunk("apiServerExtraArgs:");
    assert Chunk("  cloud-provider: ");
    assert Chunk("cce");
    TextsClean(KubeadmConfigToken);
  }

  /** The controller-manager arguments. (setup_config.go:99-104) */
  const KubeadmConfigControllers: seq<seq<string>> := [
    ["controllerManagerExtraArgs:"],
    ["  ", "allocate-node-cidrs: ", "\"true\""],
    ["  #cloud-provider: ", "cce"],
    ["  cluster-cidr: ", "${POD", "_CIDR}"],
    ["  ", "service-cluster-ip-range: ", "${SERVICE", "_CIDR}"],
    ["EOF"]
  ]

  lemma KubeadmConfigControllersClean()
    ensures Clean(Texts(KubeadmConfigControllers)) && Holes(Texts(KubeadmConfigControllers)) == []
  {
    assert Chunk("controllerManagerExtraArgs:");
    assert Chunk("  ");
    assert Chunk("allocate-node-cidrs: ");
    assert Chunk("\"true\"");
    assert Chunk("  #cloud-provider: ");
    assert Chunk("cce");
    assert Chunk("  cluster-cidr: ");
    assert Chunk("${POD");
    assert Chunk("_CIDR}");
    assert Chunk("  ");
    assert Chunk("service-cluster-ip-range: ");
    assert Chunk("${SERVICE");
    assert Chunk("_CIDR}");
    assert Chunk("EOF");
    TextsClean(KubeadmConfigControllers);
  }

  /** Initialises the control plane. (setup_config.go:106-107) */
  const KubeadmInit: seq<seq<string>> := [
    ["modprobe br", "_netfilter"],
    ["kubeadm init ", "--config ", "/etc/kubernetes/kubeadm", "_config.yaml"]
  ]

  lemma KubeadmInitClean()
    ensures Clean(Texts(KubeadmInit)) && Holes(Texts(KubeadmInit)) == []
  {
    assert Chunk("modprobe br");
    assert Chunk("_netfilter");
    assert Chunk("kubeadm init ");
    assert Chunk("--config ");
    assert Chunk("/etc/kubernetes/kubeadm");
    assert Chunk("_config.yaml");
    TextsClean(KubeadmInit);
  }

  /** Installs the admin configuration. (setup_config.go:108-110) */
  const AdminConfig: seq<seq<string>> := [
    ["mkdir -p $HOME/.kube"],
    ["cp -i ", "/etc/kubernetes/admin.conf ", "$HOME/.kube/config"],
    ["chown $(id -u):$(id ", "-g) ", "$HOME/.kube/config"]
  ]

  lemma AdminConfigClean()
    ensures Clean(Texts(AdminConfig)) && Holes(Texts(AdminConfig)) == []
  {
    assert Chunk("mkdir -p $HOME/.kube");
    assert Chunk("cp -i ");
    assert Chunk("/etc/kubernetes/admin.conf ");
    assert Chunk("$HOME/.kube/config");
    assert Chunk("chown $(id -u):$(id ");
    assert Chunk("-g) ");
    assert Chunk("$HOME/.kube/config");
    TextsClean(AdminConfig);
  }

  /** Annotates the node with its machine name, indented with spaces. (setup_config.go:112-113) */
  const MasterAnnotate: seq<seq<string>> := [
    ["for tries in $(seq ", "1 60); do"],
    ["    kubectl ", "--kubeconfig ", "/etc/kubernetes/kubelet.conf", " annotate ", "--overwrite node ", "$(hostname) ", "machine=${MACHINE} ", "&& break"]
  ]

  lemma MasterAnnotateClean()
    ensures Clean(Texts(MasterAnnotate)) && Holes(Texts(MasterAnnotate)) == []
  {
    assert Chunk("for tries in $(seq ");
    assert Chunk("1 60); do");
    assert Chunk("    kubectl ");
    assert Chunk("--kubeconfig ");
    assert Chunk("/etc/kubernetes/kubelet.conf");
    assert Chunk(" annotate ");
    assert Chunk("--overwrite node ");
    assert Chunk("$(hostname) ");
    assert Chunk("machine=${MACHINE} ");
    assert Chunk("&& break");
    TextsClean(MasterAnnotate);
  }

  /** Retries the annotation once a second. (setup_config.go:114-115) */
  const MasterAnnotateEnd: seq<seq<string>> := [
    ["    sleep 1"],
    ["done"]
  ]

  lemma MasterAnnotateEndClean()
    ensures Clean(Texts(MasterAnnotateEnd)) && Holes(Texts(MasterAnnotateEnd)) == []
  {
    assert Chunk("    sleep 1");
    assert Chunk("done");
    TextsClean(MasterAnnotateEnd);
  }

  /** Closes the subshell and logs its output. (setup_config.go:116-117, 196-197) */
  const Closing: seq<seq<string>> := [
    ["echo done."],
    [") 2>&1 | tee ", "/var/log/startup.log"]
  ]

  lemma ClosingClean()
    ensures Clean(Texts(Closing)) && Holes(Texts(Closing)) == []
  {
    assert Chunk("echo done.");
    assert Chunk(") 2>&1 | tee ");
    assert Chunk("/var/log/startup.log");
    TextsClean(Closing);
  }

  /** Installs the tools the node script needs and trusts the Docker package key. (setup_config.go:138-140) */
  const NodeAptKey: seq<seq<string>> := [
    ["apt-get update"],
    ["apt-get install -y ", "apt-transport-https ", "prips"],
    ["apt-key adv ", "--keyserver ", "hkp://keyserver.ubuntu.com ", "--recv-keys ", "F76221572C52609D"]
  ]

  lemma NodeAptKeyClean()
    ensures Clean(Texts(NodeAptKey)) && Holes(Texts(NodeAptKey)) == []
  {
    assert Chunk("apt-get update");
    assert Chunk("apt-get install -y ");
    assert Chunk("apt-transport-https ");
    assert Chunk("prips");
    assert Chunk("apt-key adv ");
    assert Chunk("--keyserver ");
    assert Chunk("hkp://keyserver.ubuntu.com ");
    assert Chunk("--recv-keys ");
    assert Chunk("F76221572C52609D");
    TextsClean(NodeAptKey);
  }

  /** Lists the Docker package repository. (setup_config.go:141-144) */
  const DockerAptSource: seq<seq<string>> := [
    ["cat <<EOF > ", "/etc/apt/sources.list.d/k8s.", "list"],
    ["deb [arch=amd64] ", "https://apt.dockerproject.or", "g/repo ", "ubuntu-xenial main"],
    ["EOF"],
    ["apt-get update"]
  ]

  lemma DockerAptSourceClean()
    ensures Clean(Texts(DockerAptSource)) && Holes(Texts(DockerAptSource)) == []
  {
    assert Chunk("cat <<EOF > ");
    assert Chunk("/etc/apt/sources.list.d/k8s.");
    assert Chunk("list");
    assert Chunk("deb [arch=amd64] ");
    assert Chunk("https://apt.dockerproject.or");
    assert Chunk("g/repo ");
    assert Chunk("ubuntu-xenial main");
    assert Chunk("EOF");
    assert Chunk("apt-get update");
    TextsClean(DockerAptSource);
  }

  /** Trusts the Kubernetes package key and creates the sources file. (setup_config.go:157-158) */
  const NodeKubernetesKey: seq<seq<string>> := [
    ["curl -s ", "https://packages.cloud.googl", "e.com/apt/doc/apt-key.gpg ", "| apt-key add -"],
    ["cat <<EOF > ", "/etc/apt/sources.list.d/kube", "rnetes.list"]
  ]

  lemma NodeKubernetesKeyClean()
    ensures Clean(Texts(NodeKubernetesKey)) && Holes(Texts(NodeKubernetesKey)) == []
  {
    assert Chunk("curl -s ");
    assert Chunk("https://packages.cloud.googl");
    assert Chunk("e.com/apt/doc/apt-key.gpg ");
    assert Chunk("| apt-key add -");
    assert Chunk("cat <<EOF > ");
    assert Chunk("/etc/apt/sources.list.d/kube");
    assert Chunk("rnetes.list");
    TextsClean(NodeKubernetesKey);
  }

  /** Lists the Kubernetes package repository. (setup_config.go:159-160) */
  const NodeKubernetesSource: seq<seq<string>> := [
    ["deb ", "http://apt.kubernetes.io/ ", "kubernetes-xenial ", "main"],
    ["EOF"]
  ]

  lemma NodeKubernetesSourceClean()
    ensures Clean(Texts(NodeKubernetesSource)) && Holes(Texts(NodeKubernetesSource)) == []
  {
    assert Chunk("deb ");
    assert Chunk("http://apt.kubernetes.io/ ");
    assert Chunk("kubernetes-xenial ");
    assert Chunk("main");
    assert Chunk("EOF");
    TextsClean(NodeKubernetesSource);
  }

  /** Creates an empty cloud configuration. (setup_config.go:161-164) */
  const NodeCloudConfig: seq<seq<string>> := [
    ["apt-get update"],
    ["mkdir -p ", "/etc/kubernetes/"],
    ["cat > ", "/etc/kubernetes/cloud-config", " <<EOF"],
    ["EOF"]
  ]

  lemma NodeCloudConfigClean()
    ensures Clean(Texts(NodeCloudConfig)) && Holes(Texts(NodeCloudConfig)) == []
  {
    assert Chunk("apt-get update");
    assert Chunk("mkdir -p ");
    assert Chunk("/etc/kubernetes/");
    assert Chunk("cat > ");
    assert Chunk("/etc/kubernetes/cloud-config");
    assert Chunk(" <<EOF");
    assert Chunk("EOF");
    TextsClean(NodeCloudConfig);
  }

  /** The package version search, indented with tabs: first half. (setup_config.go:167-170) */
  const NodeGetVersion: seq<seq<string>> := [
    ["function ", "getversion() {"],
    ["\tname=$1"],
    ["\tprefix=$2"],
    ["\tversion=$(apt-cache ", "madison $name | awk ", "'{ print $3 }' | ", "grep ^$prefix | ", "head -n1)"]
  ]

  lemma NodeGetVersionClean()
    ensures Clean(Texts(NodeGetVersion)) && Holes(Texts(NodeGetVersion)) == []
  {
    assert Chunk("function ");
    assert Chunk("getversion() {");
    assert Chunk("\tname=$1");
    assert Chunk("\tprefix=$2");
    assert Chunk("\tversion=$(apt-cache ");
    assert Chunk("madison $name | awk ");
    assert Chunk("'{ print $3 }' | ");
    assert Chunk("grep ^$prefix | ");
    assert Chunk("head -n1)");
    TextsClean(NodeGetVersion);
  }

  /** The package version search, second half. (setup_config.go:171-176) */
  const NodeGetVersionEnd: seq<seq<string>> := [
    ["\tif [[ -z ", "\"$version\" ]]; then"],
    ["\t\techo Can\\'t find ", "package $name with ", "prefix $prefix"],
    ["\t\texit 1"],
    ["\tfi"],
    ["\techo $version"],
    ["}"]
  ]

  lemma NodeGetVersionEndClean()
    ensures Clean(Texts(NodeGetVersionEnd)) && Holes(Texts(NodeGetVersionEnd)) == []
  {
    assert Chunk("\tif [[ -z ");
    assert Chunk("\"$version\" ]]; then");
    assert Chunk("\t\techo Can\\'t find ");
    assert Chunk("package $name with ");
    assert Chunk("prefix $prefix");
    assert Chunk("\t\texit 1");
    assert Chunk("\tfi");
    assert Chunk("\techo $version");
    assert Chunk("}");
    TextsClean(NodeGetVersionEnd);
  }

  /** Resolves the kubectl version and installs the three packages. (setup_config.go:179-180) */
  const NodeInstall: seq<seq<string>> := [
    ["KUBECTL=$(getversion ", "kubectl ${KUBELET", "_VERSION}-)"],
    ["apt-get install -y ", "kubelet=${KUBELET} ", "kubeadm=${KUBEADM} ", "kubectl=${KUBECTL}"]
  ]

  lemma NodeInstallClean()
    ensures Clean(Texts(NodeInstall)) && Holes(Texts(NodeInstall)) == []
  {
    assert Chunk("KUBECTL=$(getversion ");
    assert Chunk("kubectl ${KUBELET");
    assert Chunk("_VERSION}-)");
    assert Chunk("apt-get install -y ");
    assert Chunk("kubelet=${KUBELET} ");
    assert Chunk("kubeadm=${KUBEADM} ");
    assert Chunk("kubectl=${KUBECTL}");
    TextsClean(NodeInstall);
  }

  /** Joins the cluster through the master. (setup_config.go:191) */
  const NodeJoin: seq<seq<string>> := [
    ["kubeadm join ", "--token \"${TOKEN}\" ", "\"${MASTER}:${PORT}\" ", "--ignore-preflight-errors=al", "l ", "--discovery-token-unsafe-ski", "p-ca-verification"]
  ]

  lemma NodeJoinClean()
    ensures Clean(Texts(NodeJoin)) && Holes(Texts(NodeJoin)) == []
  {
    assert Chunk("kubeadm join ");
    assert Chunk("--token \"${TOKEN}\" ");
    assert Chunk("\"${MASTER}:${PORT}\" ");
    assert Chunk("--ignore-preflight-errors=al");
    assert Chunk("l ");
    assert Chunk("--discovery-token-unsafe-ski");
    assert Chunk("p-ca-verification");
    TextsClean(NodeJoin);
  }

  /** Annotates the node with its machine name, indented with tabs. (setup_config.go:192-193) */
  const NodeAnnotate: seq<seq<string>> := [
    ["for tries in $(seq ", "1 60); do"],
    ["\tkubectl ", "--kubeconfig ", "/etc/kubernetes/kubelet.conf", " annotate ", "--overwrite node ", "$(hostname) ", "machine=${MACHINE} ", "&& break"]
  ]

  lemma NodeAnnotateClean()
    ensures Clean(Texts(NodeAnnotate)) && Holes(Texts(NodeAnnotate)) == []
  {
    assert Chunk("for tries in $(seq ");
    assert Chunk("1 60); do");
    assert Chunk("\tkubectl ");
    assert Chunk("--kubeconfig ");
    assert Chunk("/etc/kubernetes/kubelet.conf");
    assert Chunk(" annotate ");
    assert Chunk("--overwrite node ");
    assert Chunk("$(hostname) ");
    assert Chunk("machine=${MACHINE} ");
    assert Chunk("&& break");
    TextsClean(NodeAnnotate);
  }

  /** Retries the annotation once a second. (setup_config.go:194-195) */
  const NodeAnnotateEnd: seq<seq<string>> := [
    ["\tsleep 1"],
    ["done"]
  ]

  lemma NodeAnnotateEndClean()
    ensures Clean(Texts(NodeAnnotateEnd)) && Holes(Texts(NodeAnnotateEnd)) == []
  {
    assert Chunk("\tsleep 1");
    assert Chunk("done");
    TextsClean(NodeAnnotateEnd);
  }

  /*
   * Proof steps for the Shape lemmas below. They state nothing about the
   * scripts; they split the facts about long concatenations into short
   * calls the verifier checks cheaply.
   */

  /** Concatenating clean blocks: the lines stay clean and the placeholder lists add up. */
  lemma Chain2(a: seq<Line>, b: seq<Line>)
    requires Clean(a) && Clean(b)
    ensures Clean(a + b)
    ensures Holes(a + b) == Holes(a) + Holes(b)
  {
    CleanAppend(a, b);
    HolesAppend(a, b);
  }

  lemma Chain4(a: seq<Line>, b: seq<Line>, c: seq<Line>, d: seq<Line>)
    requires Clean(a) && Clean(b) && Clean(c) && Clean(d)
    ensures Clean(a + b + c + d)
    ensures Holes(a + b + c + d) == Holes(a) + Holes(b) + Holes(c) + Holes(d)
  {
    CleanAppend(a, b);
    HolesAppend(a, b);
    CleanAppend(a + b, c);
    HolesAppend(a + b, c);
    CleanAppend(a + b + c, d);
    HolesAppend(a + b + c, d);
  }

  lemma Chain5(a: seq<Line>, b: seq<Line>, c: seq<Line>, d: seq<Line>, e: seq<Line>)
    requires Clean(a) && Clean(b) && Clean(c) && Clean(d) && Clean(e)
    ensures Clean(a + b + c + d + e)
    ensures Holes(a + b + c + d + e) == Holes(a) + Holes(b) + Holes(c) + Holes(d) + Holes(e)
  {
    CleanAppend(a, b);
    HolesAppend(a, b);
    CleanAppend(a + b, c);
    HolesAppend(a + b, c);
    CleanAppend(a + b + c, d);
    HolesAppend(a + b + c, d);
    CleanAppend(a + b + c + d, e);
    HolesAppend(a + b + c + d, e);
  }

  lemma Chain6(a: seq<Line>, b: seq<Line>, c: seq<Line>, d: seq<Line>, e: seq<Line>, f: seq<Line>)
    requires Clean(a) && Clean(b) && Clean(c) && Clean(d) && Clean(e) && Clean(f)
    ensures Clean(a + b + c + d + e + f)
    ensures Holes(a + b + c + d + e + f) == Holes(a) + Holes(b) + Holes(c) + Holes(d) + Holes(e) + Holes(f)
  {
    CleanAppend(a, b);
    HolesAppend(a, b);
    CleanAppend(a + b, c);
    HolesAppend(a + b, c);
    CleanAppend(a + b + c, d);
    HolesAppend(a + b + c, d);
    CleanAppend(a + b + c + d, e);
    HolesAppend(a + b + c + d, e);
    CleanAppend(a + b + c + d + e, f);
    HolesAppend(a + b + c + d + e, f);
  }

  lemma Chain7(a: seq<Line>, b: seq<Line>, c: seq<Line>, d: seq<Line>, e: seq<Line>, f: seq<Line>, g: seq<Line>)
    requires Clean(a) && Clean(b) && Clean(c) && Clean(d) && Clean(e) && Clean(f) && Clean(g)
    ensures Clean(a + b + c + d + e + f + g)
    ensures Holes(a + b + c + d + e + f + g) == Holes(a) + Holes(b) + Holes(c) + Holes(d) + Holes(e) + Holes(f) + Holes(g)
  {
    CleanAppend(a, b);
    HolesAppend(a, b);
    CleanAppend(a + b, c);
    HolesAppend(a + b, c);
    CleanAppend(a + b + c, d);
    HolesAppend(a + b + c, d);
    CleanAppend(a + b + c + d, e);
    HolesAppend(a + b + c + d, e);
    CleanAppend(a + b + c + d + e, f);
    HolesAppend(a + b + c + d + e, f);
    CleanAppend(a + b + c + d + e + f, g);
    HolesAppend(a + b + c + d + e + f, g);
  }

  lemma Chain8(a: seq<Line>, b: seq<Line>, c: seq<Line>, d: seq<Line>, e: seq<Line>, f: seq<Line>, g: seq<Line>, h: seq<Line>)
    requires Clean(a) && Clean(b) && Clean(c) && Clean(d) && Clean(e) && Clean(f) && Clean(g) && Clean(h)
    ensures Clean(a + b + c + d + e + f + g + h)
    ensures Holes(a + b + c + d + e + f + g + h) == Holes(a) + Holes(b) + Holes(c) + Holes(d) + Holes(e) + Holes(f) + Holes(g) + Holes(h)
  {
    CleanAppend(a, b);
    HolesAppend(a, b);
    CleanAppend(a + b, c);
    HolesAppend(a + b, c);
    CleanAppend(a + b + c, d);
    HolesAppend(a + b + c, d);
    CleanAppend(a + b + c + d, e);
    HolesAppend(a + b + c + d, e);
    CleanAppend(a + b + c + d + e, f);
    HolesAppend(a + b + c + d + e, f);
    CleanAppend(a + b + c + d + e + f, g);
    HolesAppend(a + b + c + d + e + f, g);
    CleanAppend(a + b + c + d + e + f + g, h);
    HolesAppend(a + b + c + d + e + f + g, h);
  }

  lemma Chain10(a: seq<Line>, b: seq<Line>, c: seq<Line>, d: seq<Line>, e: seq<Line>, f: seq<Line>, g: seq<Line>, h: seq<Line>, i: seq<Line>, j: seq<Line>)
    requires Clean(a) && Clean(b) && Clean(c) && Clean(d) && Clean(e) && Clean(f) && Clean(g) && Clean(h) && Clean(i) && Clean(j)
    ensures Clean(a + b + c + d + e + f + g + h + i + j)
    ensures Holes(a + b + c + d + e + f + g + h + i + j) == Holes(a) + Holes(b) + Holes(c) + Holes(d) + Holes(e) + Holes(f) + Holes(g) + Holes(h) + Holes(i) + Holes(j)
  {
    CleanAppend(a, b);
    HolesAppend(a, b);
    CleanAppend(a + b, c);
    HolesAppend(a + b, c);
    CleanAppend(a + b + c, d);
    HolesAppend(a + b + c, d);
    CleanAppend(a + b + c + d, e);
    HolesAppend(a + b + c + d, e);
    CleanAppend(a + b + c + d + e, f);
    HolesAppend(a + b + c + d + e, f);
    CleanAppend(a + b + c + d + e + f, g);
    HolesAppend(a + b + c + d + e + f, g);
    CleanAppend(a + b + c + d + e + f + g, h);
    HolesAppend(a + b + c + d + e + f + g, h);
    CleanAppend(a + b + c + d + e + f + g + h, i);
    HolesAppend(a + b + c + d + e + f + g + h, i);
    CleanAppend(a + b + c + d + e + f + g + h + i, j);
    HolesAppend(a + b + c + d + e + f + g + h + i, j);
  }

  /** An empty line. */
  const Blank: seq<Line> := [Text("")]

  lemma BlankClean()
    ensures Clean(Blank) && Holes(Blank) == []
  {
    assert Head(Blank[0]) == "";
  }

  /** The opening of the master script up to its settings. */
  const MasterHeader: seq<Line> :=
    Blank + Texts(Shebang) + Blank + Texts(Subshell) + MasterVersion + MasterNetwork +
    InstanceSettings + Blank

  lemma MasterHeaderShape()
    ensures Clean(MasterHeader) && Holes(MasterHeader) == [Version, ServiceCidr, PodCidr, PublicIp, ClusterToken, MachineId]
  {
    BlankClean();
    ShebangClean();
    SubshellClean();
    MasterVersionClean();
    MasterNetworkClean();
    InstanceSettingsClean();
    Chain8(Blank, Texts(Shebang), Blank, Texts(Subshell), MasterVersion, MasterNetwork, InstanceSettings, Blank);
    MasterHeaderHoleList();
  }

  /** Proof step: the placeholder lists of the pieces, put together, outside the Shape lemma. */
  lemma MasterHeaderHoleList()
    ensures var e: seq<Placeholder> := [];
            e + e + e + e + [Version] + [ServiceCidr, PodCidr] + [PublicIp, ClusterToken, MachineId] + e == [Version, ServiceCidr, PodCidr, PublicIp, ClusterToken, MachineId]
  {
  }

  /** The package sources and tools of the master. */
  const MasterRepositories: seq<Line> :=
    Texts(KubernetesAptKey) + Texts(KubernetesAptSource) + Texts(MasterPackages) + Blank

  lemma MasterRepositoriesShape()
    ensures Clean(MasterRepositories) && Holes(MasterRepositories) == []
  {
    BlankClean();
    KubernetesAptKeyClean();
    KubernetesAptSourceClean();
    MasterPackagesClean();
    Chain4(Texts(KubernetesAptKey), Texts(KubernetesAptSource), Texts(MasterPackages), Blank);
    MasterRepositoriesHoleList();
  }

  /** Proof step: the placeholder lists of the pieces, put together, outside the Shape lemma. */
  lemma MasterRepositoriesHoleList()
    ensures var e: seq<Placeholder> := [];
            e + e + e + e == []
  {
  }

  /** The Docker installation, common to both scripts. */
  const DockerSetup: seq<Line> :=
    Texts(DockerFunctionOpen) + Texts(DockerInstall) + Texts(DockerOptions) + Texts(DockerStart)

  lemma DockerSetupShape()
    ensures Clean(DockerSetup) && Holes(DockerSetup) == []
  {
    DockerFunctionOpenClean();
    DockerInstallClean();
    DockerOptionsClean();
    DockerStartClean();
    Chain4(Texts(DockerFunctionOpen), Texts(DockerInstall), Texts(DockerOptions), Texts(DockerStart));
    DockerSetupHoleList();
  }

  /** Proof step: the placeholder lists of the pieces, put together, outside the Shape lemma. */
  lemma DockerSetupHoleList()
    ensures var e: seq<Placeholder> := [];
            e + e + e + e == []
  {
  }

  /** The kubelet and kubeadm installation of the master. */
  const MasterPackageInstall: seq<Line> :=
    Blank + Texts(DnsServer) + Texts(VersionSearchNote) + Texts(VersionSearchNoteEnd) +
    Texts(MasterGetVersion) + Texts(MasterGetVersionEnd) + Texts(PackageVersions) +
    Texts(MasterInstall) + Blank + Texts(CleanMasterNote)

  lemma MasterPackageInstallShape()
    ensures Clean(MasterPackageInstall) && Holes(MasterPackageInstall) == []
  {
    BlankClean();
    DnsServerClean();
    VersionSearchNoteClean();
    VersionSearchNoteEndClean();
    MasterGetVersionClean();
    MasterGetVersionEndClean();
    PackageVersionsClean();
    MasterInstallClean();
    CleanMasterNoteClean();
    Chain10(Blank, Texts(DnsServer), Texts(VersionSearchNote), Texts(VersionSearchNoteEnd), Texts(MasterGetVersion), Texts(MasterGetVersionEnd), Texts(PackageVersions), Texts(MasterInstall), Blank, Texts(CleanMasterNote));
    MasterPackageInstallHoleList();
  }

  /** Proof step: the placeholder lists of the pieces, put together, outside the Shape lemma. */
  lemma MasterPackageInstallHoleList()
    ensures var e: seq<Placeholder> := [];
            e + e + e + e + e + e + e + e + e + e == []
  {
  }

  /** The kubelet defaults, common to both scripts. */
  const KubeletSetup: seq<Line> :=
    Texts(KubeletArgsNote) + Texts(KubeletNetwork) + Texts(KubeletDns) + Texts(KubeletRestart)

  lemma KubeletSetupShape()
    ensures Clean(KubeletSetup) && Holes(KubeletSetup) == []
  {
    KubeletArgsNoteClean();
    KubeletNetworkClean();
    KubeletDnsClean();
    KubeletRestartClean();
    Chain4(Texts(KubeletArgsNote), Texts(KubeletNetwork), Texts(KubeletDns), Texts(KubeletRestart));
    KubeletSetupHoleList();
  }

  /** Proof step: the placeholder lists of the pieces, put together, outside the Shape lemma. */
  lemma KubeletSetupHoleList()
    ensures var e: seq<Placeholder> := [];
            e + e + e + e == []
  {
  }

  /** The kubeadm configuration file. */
  const KubeadmConfig: seq<Line> :=
    Blank + Texts(KubeadmConfigOpen) + Texts(KubeadmConfigKind) + Texts(KubeadmConfigApi) +
    Texts(KubeadmConfigSans) + Texts(KubeadmConfigToken) + Texts(KubeadmConfigControllers) +
    Blank

  lemma KubeadmConfigShape()
    ensures Clean(KubeadmConfig) && Holes(KubeadmConfig) == []
  {
    BlankClean();
    KubeadmConfigOpenClean();
    KubeadmConfigKindClean();
    KubeadmConfigApiClean();
    KubeadmConfigSansClean();
    KubeadmConfigTokenClean();
    KubeadmConfigControllersClean();
    Chain8(Blank, Texts(KubeadmConfigOpen), Texts(KubeadmConfigKind), Texts(KubeadmConfigApi), Texts(KubeadmConfigSans), Texts(KubeadmConfigToken), Texts(KubeadmConfigControllers), Blank);
    KubeadmConfigHoleList();
  }

  /** Proof step: the placeholder lists of the pieces, put together, outside the Shape lemma. */
  lemma KubeadmConfigHoleList()
    ensures var e: seq<Placeholder> := [];
            e + e + e + e + e + e + e + e == []
  {
  }

  /** Control plane start-up and the node annotation. */
  const MasterFinish: seq<Line> :=
    Texts(KubeadmInit) + Texts(AdminConfig) + Blank + Texts(MasterAnnotate) +
    Texts(MasterAnnotateEnd) + Texts(Closing) + Blank

  lemma MasterFinishShape()
    ensures Clean(MasterFinish) && Holes(MasterFinish) == []
  {
    BlankClean();
    KubeadmInitClean();
    AdminConfigClean();
    MasterAnnotateClean();
    MasterAnnotateEndClean();
    ClosingClean();
    Chain7(Texts(KubeadmInit), Texts(AdminConfig), Blank, Texts(MasterAnnotate), Texts(MasterAnnotateEnd), Texts(Closing), Blank);
    MasterFinishHoleList();
  }

  /** Proof step: the placeholder lists of the pieces, put together, outside the Shape lemma. */
  lemma MasterFinishHoleList()
    ensures var e: seq<Placeholder> := [];
            e + e + e + e + e + e + e == []
  {
  }

  /** The opening of the node script up to its settings. */
  const NodeHeader: seq<Line> :=
    Blank + Texts(Shebang) + Texts(Subshell) + NodeVersion + NodeNetwork + InstanceSettings +
    MasterAddress + Blank

  lemma NodeHeaderShape()
    ensures Clean(NodeHeader) && Holes(NodeHeader) == [Version, ServiceCidr, PodCidr, PublicIp, ClusterToken, MachineId, MasterIp]
  {
    BlankClean();
    ShebangClean();
    SubshellClean();
    NodeVersionClean();
    NodeNetworkClean();
    InstanceSettingsClean();
    MasterAddressClean();
    Chain8(Blank, Texts(Shebang), Texts(Subshell), NodeVersion, NodeNetwork, InstanceSettings, MasterAddress, Blank);
    NodeHeaderHoleList();
  }

  /** Proof step: the placeholder lists of the pieces, put together, outside the Shape lemma. */
  lemma NodeHeaderHoleList()
    ensures var e: seq<Placeholder> := [];
            e + e + e + [Version] + [ServiceCidr, PodCidr] + [PublicIp, ClusterToken, MachineId] + [MasterIp] + e == [Version, ServiceCidr, PodCidr, PublicIp, ClusterToken, MachineId, MasterIp]
  {
  }

  /** The tools and the Docker package source of the node. */
  const NodeRepositories: seq<Line> :=
    Texts(NodeAptKey) + Texts(DockerAptSource)

  lemma NodeRepositoriesShape()
    ensures Clean(NodeRepositories) && Holes(NodeRepositories) == []
  {
    NodeAptKeyClean();
    DockerAptSourceClean();
    Chain2(Texts(NodeAptKey), Texts(DockerAptSource));
    NodeRepositoriesHoleList();
  }

  /** Proof step: the placeholder lists of the pieces, put together, outside the Shape lemma. */
  lemma NodeRepositoriesHoleList()
    ensures var e: seq<Placeholder> := [];
            e + e == []
  {
  }

  /** The kubelet, kubeadm and kubectl installation of the node. */
  const NodePackageInstall: seq<Line> :=
    Texts(NodeKubernetesKey) + Texts(NodeKubernetesSource) + Texts(NodeCloudConfig) +
    Texts(VersionSearchNote) + Texts(VersionSearchNoteEnd) + Texts(NodeGetVersion) +
    Texts(NodeGetVersionEnd) + Texts(PackageVersions) + Texts(NodeInstall) + Texts(DnsServer)

  lemma NodePackageInstallShape()
    ensures Clean(NodePackageInstall) && Holes(NodePackageInstall) == []
  {
    NodeKubernetesKeyClean();
    NodeKubernetesSourceClean();
    NodeCloudConfigClean();
    VersionSearchNoteClean();
    VersionSearchNoteEndClean();
    NodeGetVersionClean();
    NodeGetVersionEndClean();
    PackageVersionsClean();
    NodeInstallClean();
    DnsServerClean();
    Chain10(Texts(NodeKubernetesKey), Texts(NodeKubernetesSource), Texts(NodeCloudConfig), Texts(VersionSearchNote), Texts(VersionSearchNoteEnd), Texts(NodeGetVersion), Texts(NodeGetVersionEnd), Texts(PackageVersions), Texts(NodeInstall), Texts(DnsServer));
    NodePackageInstallHoleList();
  }

  /** Proof step: the placeholder lists of the pieces, put together, outside the Shape lemma. */
  lemma NodePackageInstallHoleList()
    ensures var e: seq<Placeholder> := [];
            e + e + e + e + e + e + e + e + e + e == []
  {
  }

  /** Joining the cluster and the node annotation. */
  const NodeFinish: seq<Line> :=
    Texts(NodeJoin) + Texts(NodeAnnotate) + Texts(NodeAnnotateEnd) + Texts(Closing) + Blank

  lemma NodeFinishShape()
    ensures Clean(NodeFinish) && Holes(NodeFinish) == []
  {
    BlankClean();
    NodeJoinClean();
    NodeAnnotateClean();
    NodeAnnotateEndClean();
    ClosingClean();
    Chain5(Texts(NodeJoin), Texts(NodeAnnotate), Texts(NodeAnnotateEnd), Texts(Closing), Blank);
    NodeFinishHoleList();
  }

  /** Proof step: the placeholder lists of the pieces, put together, outside the Shape lemma. */
  lemma NodeFinishHoleList()
    ensures var e: seq<Placeholder> := [];
            e + e + e + e + e == []
  {
  }

  /** The lines of `MasterStartup` (setup_config.go:3-118); the literal opens and closes with a newline. */
  const MasterStartupLines: seq<Line> :=
    MasterHeader + MasterRepositories + DockerSetup + MasterPackageInstall + KubeletSetup +
    KubeadmConfig + MasterFinish

  /** The placeholders of `MasterStartupLines`, top to bottom. */
  const MasterHoles: seq<Placeholder> := [Version, ServiceCidr, PodCidr, PublicIp, ClusterToken, MachineId]

  lemma MasterStartupLinesShape()
    ensures Clean(MasterStartupLines) && Holes(MasterStartupLines) == MasterHoles
  {
    MasterHeaderShape();
    MasterRepositoriesShape();
    DockerSetupShape();
    MasterPackageInstallShape();
    KubeletSetupShape();
    KubeadmConfigShape();
    MasterFinishShape();
    Chain7(MasterHeader, MasterRepositories, DockerSetup, MasterPackageInstall, KubeletSetup, KubeadmConfig, MasterFinish);
    MasterStartupLinesHoleList();
  }

  /** Proof step: the placeholder lists of the pieces, put together, outside the Shape lemma. */
  lemma MasterStartupLinesHoleList()
    ensures var e: seq<Placeholder> := [];
            [Version, ServiceCidr, PodCidr, PublicIp, ClusterToken, MachineId] + e + e + e + e + e + e == [Version, ServiceCidr, PodCidr, PublicIp, ClusterToken, MachineId]
  {
  }

  /** The lines of `NodeStartup` (setup_config.go:120-198); the literal opens and closes with a newline. */
  const NodeStartupLines: seq<Line> :=
    NodeHeader + NodeRepositories + DockerSetup + NodePackageInstall + KubeletSetup + NodeFinish

  /** The placeholders of `NodeStartupLines`, top to bottom. */
  const NodeHoles: seq<Placeholder> := [Version, ServiceCidr, PodCidr, PublicIp, ClusterToken, MachineId, MasterIp]

  lemma NodeStartupLinesShape()
    ensures Clean(NodeStartupLines) && Holes(NodeStartupLines) == NodeHoles
  {
    NodeHeaderShape();
    NodeRepositoriesShape();
    DockerSetupShape();
    NodePackageInstallShape();
    KubeletSetupShape();
    NodeFinishShape();
    Chain6(NodeHeader, NodeRepositories, DockerSetup, NodePackageInstall, KubeletSetup, NodeFinish);
    NodeStartupLinesHoleList();
  }

  /** Proof step: the placeholder lists of the pieces, put together, outside the Shape lemma. */
  lemma NodeStartupLinesHoleList()
    ensures var e: seq<Placeholder> := [];
            [Version, ServiceCidr, PodCidr, PublicIp, ClusterToken, MachineId, MasterIp] + e + e + e + e + e == [Version, ServiceCidr, PodCidr, PublicIp, ClusterToken, MachineId, MasterIp]
  {
  }

  /** The `MasterStartup` template. */
  const MasterStartup: string := Join(MasterStartupLines)

  /** The `NodeStartup` template. */
  const NodeStartup: string := Join(NodeStartupLines)

  lemma MasterHoleCounts(q: Placeholder)
    ensures multiset(MasterHoles)[q] == (if q == MasterIp then 0 else 1)
  {
  }

  lemma NodeHoleCounts(q: Placeholder)
    ensures multiset(NodeHoles)[q] == 1
  {
  }

  lemma MasterHolesOnce()
    ensures forall p: Placeholder :: multiset(MasterHoles)[p] <= 1
  {
    forall p: Placeholder ensures multiset(MasterHoles)[p] <= 1 {
      MasterHoleCounts(p);
    }
  }

  lemma NodeHolesOnce()
    ensures forall p: Placeholder :: multiset(NodeHoles)[p] <= 1
  {
    forall p: Placeholder ensures multiset(NodeHoles)[p] <= 1 {
      NodeHoleCounts(p);
    }
  }

  /** No placeholder is assigned twice in the master script. */
  lemma MasterStartupLinesOnce()
    ensures AtMostOnce(MasterStartupLines)
  {
    MasterStartupLinesShape();
    MasterHolesOnce();
  }

  /** No placeholder is assigned twice in the node script. */
  lemma NodeStartupLinesOnce()
    ensures AtMostOnce(NodeStartupLines)
  {
    NodeStartupLinesShape();
    NodeHolesOnce();
  }

}

/**
 * What the two templates promise to the code that fills them in: which
 * placeholder tokens occur and how often, and that filling them leaves
 * none behind.
 */
module StartupTokens {
  import opened GoStrings
  import opened StartupScript
  import opened StartupTemplates

  /** Each placeholder the master script uses occurs in it exactly once; `__MASTER__` does not occur. */
  lemma MasterStartupTokens(q: Placeholder)
    ensures Occurrences(MasterStartup, Token(q)) == (if q == MasterIp then 0 else 1)
  {
    MasterStartupLinesShape();
    CleanTokenCounts(MasterStartupLines, q);
    MasterHoleCounts(q);
  }

  /** Each of the seven placeholders occurs in the node script exactly once. */
  lemma NodeStartupTokens(q: Placeholder)
    ensures Occurrences(NodeStartup, Token(q)) == 1
  {
    NodeStartupLinesShape();
    CleanTokenCounts(NodeStartupLines, q);
    NodeHoleCounts(q);
  }

  /** The `__MASTER__` replacement leaves the master script as it is. */
  lemma MasterStartupIgnoresMasterIp(v: string)
    ensures ReplaceOnce(MasterStartup, Token(MasterIp), v) == MasterStartup
  {
    MasterStartupTokens(MasterIp);
    TokenShape(MasterIp);
    ReplaceOnceAbsent(MasterStartup, Token(MasterIp), v);
  }

  /**
   * Rendering the master script with token-free values fills each of its
   * six assignments with its value and leaves no placeholder token.
   */
  lemma RenderMasterStartup(vs: Values)
    requires ValuesTokenFree(vs)
    ensures Render(MasterStartup, vs) == Join(FillAll(MasterStartupLines, vs))
    ensures TokenFree(Render(MasterStartup, vs))
  {
    MasterStartupLinesShape();
    MasterStartupLinesOnce();
    RenderCleanFillsAll(MasterStartupLines, vs);
  }

  /** The same for the node script and all seven of its assignments. */
  lemma RenderNodeStartup(vs: Values)
    requires ValuesTokenFree(vs)
    ensures Render(NodeStartup, vs) == Join(FillAll(NodeStartupLines, vs))
    ensures TokenFree(Render(NodeStartup, vs))
  {
    NodeStartupLinesShape();
    NodeStartupLinesOnce();
    RenderCleanFillsAll(NodeStartupLines, vs);
  }

}
