/** Either back end behind the interface the phase machine drives. */
module Managers {
  import opened Basics
  import opened Epochs
  import TcpCryptos
  import UdpCryptos

  datatype Manager = UdpManager(udp: UdpCryptos.Crypto) | TcpManager(tcp: TcpCryptos.Crypto)
  {
    ghost function Root(): (result: set<object>)
    {
      match this
      case UdpManager(u) => {u, u.ring}
      case TcpManager(t) => {t}
    }

    ghost function Repr(): (result: set<object>)
      reads Root()
    {
      match this
      case UdpManager(u) => {u, u.ring} + u.ring.Repr
      case TcpManager(t) => t.Repr()
    }

    ghost predicate Valid()
      reads Root(), Repr()
    {
      match this
      case UdpManager(u) => u.Valid()
      case TcpManager(t) => t.Valid()
    }

    ghost function Model(): (result: Crypto)
      reads Root(), Repr()
      requires Valid()
    {
      match this
      case UdpManager(u) => Udp(u.Model())
      case TcpManager(t) => Tcp(t.Model())
    }

    method StageEpoch(keys: KeyPair) returns (r: Result<uint16, Error>)
      requires Valid()
      modifies Repr()
      ensures Valid() && fresh(Repr() - old(Repr()))
      ensures (r, Model()) == Stage(old(Model()), keys)
    {
      match this
      case UdpManager(u) => r := u.StageEpoch(keys);
      case TcpManager(t) => r := t.StageEpoch(keys);
    }

    method PromoteSendEpoch(epoch: uint16)
      requires Valid()
      modifies Repr()
      ensures Valid() && fresh(Repr() - old(Repr()))
      ensures Model() == Promote(old(Model()), epoch)
    {
      match this
      case UdpManager(u) => u.PromoteSendEpoch(epoch);
      case TcpManager(t) => t.PromoteSendEpoch(epoch);
    }

    method RetirePreviousEpoch() returns (ok: bool)
      requires Valid()
      modifies Repr()
      ensures Valid() && fresh(Repr() - old(Repr()))
      ensures (ok, Model()) == RetirePrevious(old(Model()))
    {
      match this
      case UdpManager(u) => ok := u.RetirePreviousEpoch();
      case TcpManager(t) => ok := t.RetirePreviousEpoch();
    }
  }
}
