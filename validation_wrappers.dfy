/**
 * The composite validators of common/validation/wrappers.go: each makes a
 * zero Result and adds one field error per failed check, in a fixed order.
 */
module ValidationWrappers {
  import opened Optional
  import opened GoLib
  import opened ValidationTypes
  import opened ValidationBasic

  const EmailField: string := "email"
  const PhoneField: string := "phone"
  const DeviceField: string := "device"
  const IpAddressField: string := "ip_address"
  const AntiPhishingCodeField: string := "code"

  /** An address is rejected when it is neither a valid IPv4 nor a valid IPv6 address. */
  predicate IpRejected(p: Patterns, ip: string) {
    !IsIpv4Valid(p, ip) && !IsIpv6Valid(p, ip)
  }

  predicate DeviceMissing(device: string) { TrimSpace(device) == "" }

  /**
   * ValidateIPAddressAndDevice: an "ip_address" error iff the address is
   * rejected, then a "device" error iff the device is blank; nothing else.
   */
  method ValidateIPAddressAndDevice(p: Patterns, ipAddress: string, device: string) returns (out: Result)
    ensures fresh(out) && out.details == "" && out.code == "" && out.meta == None
    ensures |out.errors| == (if IpRejected(p, ipAddress) then 1 else 0) + (if DeviceMissing(device) then 1 else 0)
    ensures IpRejected(p, ipAddress) ==>
      out.errors[0].name == IpAddressField && out.errors[0].codes == [InvalidIPAddress(ipAddress)]
    ensures DeviceMissing(device) ==>
      out.errors[|out.errors| - 1].name == DeviceField && out.errors[|out.errors| - 1].codes == [EmptyDevice()]
    ensures forall i :: 0 <= i < |out.errors| ==> fresh(out.errors[i]) && |out.errors[i].codes| == 1
    ensures out.IsValid() <==> !IpRejected(p, ipAddress) && !DeviceMissing(device)
  {
    out := NewResult();
    var ipRejected := !IsIpv4Valid(p, ipAddress) && !IsIpv6Valid(p, ipAddress);
    if ipRejected {
      var _ := out.AddFieldError(IpAddressField, InvalidIPAddress(ipAddress));
    }
    var deviceMissing := TrimSpace(device) == "";
    if deviceMissing {
      var _ := out.AddFieldError(DeviceField, EmptyDevice());
    }
  }

  /** ValidateIPAddress: one "ip_address" error iff both IP checks fail, otherwise none. */
  method ValidateIPAddress(p: Patterns, ip: string) returns (out: Result)
    ensures fresh(out) && out.details == "" && out.code == "" && out.meta == None
    ensures |out.errors| == (if IpRejected(p, ip) then 1 else 0)
    ensures IpRejected(p, ip) ==>
      fresh(out.errors[0]) && out.errors[0].name == IpAddressField && out.errors[0].codes == [InvalidIPAddress(ip)]
    ensures out.IsValid() <==> !IpRejected(p, ip)
  {
    out := NewResult();
    if !IsIpv4Valid(p, ip) && !IsIpv6Valid(p, ip) {
      var _ := out.AddFieldError(IpAddressField, InvalidIPAddress(ip));
    }
  }

  /** ValidateAntiPhishingCode: one "code" error with the invalid-code details iff the code breaks the rule. */
  method ValidateAntiPhishingCode(code: string) returns (out: Result)
    ensures fresh(out) && out.details == "" && out.code == "" && out.meta == None
    ensures |out.errors| == (if AntiPhishingCodeRule(code) then 0 else 1)
    ensures !AntiPhishingCodeRule(code) ==>
      fresh(out.errors[0]) && out.errors[0].name == AntiPhishingCodeField
      && out.errors[0].codes == [InvalidAntiPhishingCode()]
      && out.errors[0].codes[0].code == "invalid_anti_phishing_code"
    ensures out.IsValid() <==> AntiPhishingCodeRule(code)
  {
    out := NewResult();
    var ok := IsAntiPhishingCodeValid(code);
    if !ok {
      var _ := out.AddFieldError(AntiPhishingCodeField, InvalidAntiPhishingCode());
    }
  }

  /**
   * Field errors are shared: after one result's errors are added to
   * another, a code added through the second is seen through the first.
   */
  method SharedFieldErrors(first: ErrorDetails, second: ErrorDetails) returns (a: Result, b: Result)
    ensures fresh(a) && fresh(b) && |a.errors| == 1 && b.errors == a.errors
    ensures a.errors[0].name == DeviceField && a.errors[0].codes == [first, second]
  {
    a := NewResult();
    var _ := a.AddFieldError(DeviceField, first);
    b := NewResult();
    b.AddResult(a);
    var _ := b.AddFieldError(DeviceField, second);
  }
}
