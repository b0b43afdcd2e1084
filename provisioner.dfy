/**
 * What both provisioning backends hand back to their callers: the rendered
 * client configuration, the generated public key and the assigned address.
 */
module Provisioner {

  /** The fields of the client configuration file. */
  datatype ClientConfig = ClientConfig(
    address: string,
    privateKey: string,
    dns: seq<string>,
    publicKey: string,
    allowedIPs: seq<string>,
    endpoint: string)

  /** ConfigResult: the configuration, the generated public key (or ""), the assigned address. */
  datatype ConfigResult = ConfigResult(config: ClientConfig, publicKey: string, assignedIP: string)

  /** A generated key pair, in its text form. */
  datatype KeyPair = KeyPair(privateKey: string, publicKey: string)
}
