// The records of api/portainer.go that the model stores and compares.
module Portainer {

  datatype TLSConfiguration = TLSConfiguration(
    tls: bool, skipVerify: bool, caCertPath: string, certPath: string, keyPath: string)

  const NO_TLS := TLSConfiguration(false, false, "", "", "")

  datatype AzureCredentials = AzureCredentials(
    applicationId: string, tenantId: string, authenticationKey: string)

  datatype Extension = Extension(kind: int, url: string)

  datatype Snapshot = Snapshot(time: int, content: string)

  const DOCKER_ENVIRONMENT := 1
  const AGENT_ON_DOCKER_ENVIRONMENT := 2
  const AZURE_ENVIRONMENT := 3

  const STATUS_UP := 1
  const STATUS_DOWN := 2

  datatype Endpoint = Endpoint(
    id: int,
    name: string,
    kind: int,
    url: string,
    groupId: int,
    publicUrl: string,
    tlsConfig: TLSConfiguration,
    authorizedUsers: seq<int>,
    authorizedTeams: seq<int>,
    extensions: seq<Extension>,
    azure: AzureCredentials,
    tags: seq<string>,
    status: int,
    snapshots: seq<Snapshot>,
    // Deprecated in database version 4.
    legacyTLS: bool,
    legacyCACertPath: string,
    legacyCertPath: string,
    legacyKeyPath: string)

  const ZERO_ENDPOINT := Endpoint(
    0, "", 0, "", 0, "", NO_TLS, [], [], [], AzureCredentials("", "", ""), [], 0, [], false, "", "", "")

  datatype EndpointGroup = EndpointGroup(
    id: int,
    name: string,
    description: string,
    authorizedUsers: seq<int>,
    authorizedTeams: seq<int>,
    tags: seq<string>)

  // A user's membership of a team.
  datatype Membership = Membership(teamId: int, leader: bool)

  // What is known of the caller of a restricted operation.
  datatype SecurityContext = SecurityContext(isAdmin: bool, userId: int, memberships: seq<Membership>)
}
