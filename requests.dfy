/** The record types the routing package exchanges with the OpenFaaS gateway
    (package `requests`) and the URL record of package `net/url`, reduced to
    the fields the routing code reads or writes. */
module Requests {
  import opened Wrappers

  /** A string-to-string mapping reached through a Go pointer: None is nil. */
  type StringMap = Option<map<string, string>>

  /** A parsed URL: scheme, host (possibly with ":port") and path. */
  datatype Url = Url(scheme: string, host: string, path: string)

  /** A function create/update request as the gateway receives it. */
  datatype CreateFunctionRequest = CreateFunctionRequest(
    service: string,
    image: string,
    network: string,
    envProcess: string,
    envVars: map<string, string>,
    constraints: seq<string>,
    secrets: seq<string>,
    labels: StringMap,
    annotations: StringMap,
    readOnlyRootFilesystem: bool)

  /** A deployed function as a provider lists it. */
  datatype Function = Function(
    name: string,
    image: string,
    replicas: nat,
    envProcess: string,
    availableReplicas: nat,
    labels: StringMap,
    annotations: StringMap)
}
