/** The build definition: the records that the YAML file is read into, and their defaults. */
module Config {

  datatype Settings = Settings(
    volumeName: string,
    volumeDriver: string,
    workingDirectory: string,
    shell: seq<string>,
    networkName: string,
    networkDriver: string,
    timeout: int,
    consoleLogLevel: string)

  datatype Repository = Repository(
    name: string,
    location: string,
    directory: string,
    shallow: bool,
    branch: string,
    tag: string,
    commit: string)

  datatype Service = Service(
    name: string,
    image: string,
    environment: seq<string>,
    suppressLog: bool,
    privileged: bool)

  /** A file transfer entry: `inject` with optional inline `content`, or `extract` to `destination`. */
  datatype File = File(
    inject: string,
    content: string,
    extract: string,
    destination: string)

  /** A build step. The last three fields are read by steps.go but are not declared by the record in insulatr.go. */
  datatype Step = Step(
    name: string,
    image: string,
    shell: seq<string>,
    overrideEntrypoint: bool,
    user: string,
    commands: seq<string>,
    environment: seq<string>,
    mountDockerSock: bool,
    forwardSshAgent: bool,
    workingDirectory: string,
    networkName: string,
    volumeName: string)

  datatype Build = Build(
    settings: Settings,
    repositories: seq<Repository>,
    files: seq<File>,
    services: seq<Service>,
    environment: seq<string>,
    steps: seq<Step>)

  /** The zero value of a service, which Go leaves in a range variable before the first iteration. */
  const NoService := Service("", "", [], false, false)

  /** The build definition the YAML file is decoded on top of. */
  function Defaults(): (b: Build)
    ensures b.settings.volumeName == "myvolume" && b.settings.volumeDriver == "local"
    ensures b.settings.workingDirectory == "/src"
    ensures b.settings.shell == ["sh"]
    ensures b.settings.timeout == 3600
    ensures b.settings.networkName == "mynetwork" && b.settings.networkDriver == "bridge"
    ensures b.settings.consoleLogLevel == ""
    ensures b.repositories == [] && b.files == [] && b.services == [] && b.environment == [] && b.steps == []
  {
    Build(
      Settings("myvolume", "local", "/src", ["sh"], "mynetwork", "bridge", 60 * 60, ""),
      [], [], [], [], [])
  }
}
