/** The candidate list of the applet table builder, one entry per
    conditional push, in source order, and the proof that it is strictly
    ascending by name. Entry points keep the called path as written. */
module Table {
  import opened Wrappers
  import opened Lex
  import opened Applet
  import opened Registry

  /** Pushes at applets/applet_tables.rs:50-89. */
  const Block00: seq<Candidate> := [
    Candidate("test-bracket1", Applet("[", "test", CStyle("crate::coreutils::test::test_main"), DirUsrBin, UsageFile("../usage/["))),
    Candidate("test-bracket2", Applet("[[", "test", CStyle("crate::coreutils::test::test_main"), DirUsrBin, UsageFile("../usage/[["))),
    Candidate("acpid", Applet("acpid", "acpid", CStyle("acpcrate::coreutils::id::id_main"), DirSbin, UsageFile("../usage/acpid"))),
    Candidate("add-shell", Applet("add-shell", "add_remove_shell", CStyle("crate::loginutils::add_remove_shell::add_remove_shell_main"), DirUsrSbin, UsageFile("../usage/add-shell"))),
    Candidate("addgroup", Applet("addgroup", "addgroup", CStyle("crate::loginutils::addgroup::addgroup_main"), DirUsrSbin, UsageFile("../usage/addgroup")))
  ]

  /** Pushes at applets/applet_tables.rs:90-129. */
  const Block01: seq<Candidate> := [
    Candidate("adduser", Applet("adduser", "adduser", CStyle("crate::loginutils::adduser::adduser_main"), DirUsrSbin, UsageFile("../usage/adduser"))),
    Candidate("adjtimex", Applet("adjtimex", "adjtimex", CStyle("crate::miscutils::adjtimex::adjtimex_main"), DirSbin, UsageFile("../usage/adjtimex"))),
    Candidate("arch", Applet("arch", "uname", CStyle("crate::coreutils::uname::uname_main"), DirBin, UsageFile("../usage/arch"))),
    Candidate("arp", Applet("arp", "arp", CStyle("crate::networking::arp::arp_main"), DirSbin, UsageFile("../usage/arp"))),
    Candidate("arping", Applet("arping", "arping", CStyle("crate::networking::arping::arcrate::networking::ping::ping_main"), DirUsrSbin, UsageFile("../usage/arping")))
  ]

  /** Pushes at applets/applet_tables.rs:130-169. */
  const Block02: seq<Candidate> := [
    Candidate("ash", Applet("ash", "ash", CStyle("crate::shell::ash::ash_main"), DirBin, UsageFile("../usage/ash"))),
    Candidate("awk", Applet("awk", "awk", CStyle("crate::editors::awk::awk_main"), DirUsrBin, UsageFile("../usage/awk"))),
    Candidate("base64", Applet("base64", "base64", CStyle("crate::coreutils::uudecode::base64_main"), DirBin, UsageFile("../usage/base64"))),
    Candidate("basename", Applet("basename", "basename", CStyle("crate::coreutils::basename::basename_main"), DirUsrBin, UsageFile("../usage/basename"))),
    Candidate("bc", Applet("bc", "bc", CStyle("crate::miscutils::bc::bc_main"), DirUsrBin, UsageFile("../usage/bc")))
  ]

  /** Pushes at applets/applet_tables.rs:170-209. */
  const Block03: seq<Candidate> := [
    Candidate("beep", Applet("beep", "beep", CStyle("crate::miscutils::beep::beep_main"), DirUsrBin, UsageFile("../usage/beep"))),
    Candidate("blkdiscard", Applet("blkdiscard", "blkdiscard", CStyle("crate::util_linux::blkdiscard::blkdiscard_main"), DirUsrBin, UsageFile("../usage/blkdiscard"))),
    Candidate("blkid", Applet("blkid", "blkid", CStyle("blkcrate::coreutils::id::id_main"), DirSbin, UsageFile("../usage/blkid"))),
    Candidate("blockdev", Applet("blockdev", "blockdev", CStyle("crate::util_linux::blockdev::blockdev_main"), DirSbin, UsageFile("../usage/blockdev"))),
    Candidate("bootchartd", Applet("bootchartd", "bootchartd", CStyle("crate::init::bootchartd::bootchartd_main"), DirSbin, UsageFile("../usage/bootchartd")))
  ]

  /** Pushes at applets/applet_tables.rs:210-249. */
  const Block04: seq<Candidate> := [
    Candidate("brctl", Applet("brctl", "brctl", CStyle("crate::networking::brctl::brctl_main"), DirUsrSbin, UsageFile("../usage/brctl"))),
    Candidate("bunzip2", Applet("bunzip2", "bunzip2", CStyle("crate::archival::bbunzip::bunzip2_main"), DirUsrBin, UsageFile("../usage/bunzip2"))),
    Candidate("bzcat", Applet("bzcat", "bunzip2", CStyle("crate::archival::bbunzip::bunzip2_main"), DirUsrBin, UsageFile("../usage/bzcat"))),
    Candidate("bzip2", Applet("bzip2", "bzip2", CStyle("crate::archival::bzip2::bzip2_main"), DirUsrBin, UsageFile("../usage/bzip2"))),
    Candidate("cal", Applet("cal", "cal", CStyle("crate::util_linux::cal::cal_main"), DirUsrBin, UsageFile("../usage/cal")))
  ]

  /** Pushes at applets/applet_tables.rs:250-289. */
  const Block05: seq<Candidate> := [
    Candidate("cat", Applet("cat", "cat", CStyle("crate::coreutils::cat::cat_main"), DirBin, UsageFile("../usage/cat"))),
    Candidate("chat", Applet("chat", "chat", CStyle("crate::miscutils::chat::chat_main"), DirUsrSbin, UsageFile("../usage/chat"))),
    Candidate("chattr", Applet("chattr", "chattr", CStyle("chatcrate::coreutils::tr::tr_main"), DirBin, UsageFile("../usage/chattr"))),
    Candidate("chgrp", Applet("chgrp", "chgrp", CStyle("crate::coreutils::chgrp::chgrp_main"), DirBin, UsageFile("../usage/chgrp"))),
    Candidate("chmod", Applet("chmod", "chmod", CStyle("crate::coreutils::chmod::chmcrate::coreutils::od::od_main"), DirBin, UsageFile("../usage/chmod")))
  ]

  /** Pushes at applets/applet_tables.rs:290-329. */
  const Block06: seq<Candidate> := [
    Candidate("chown", Applet("chown", "chown", CStyle("crate::coreutils::chown::chown_main"), DirBin, UsageFile("../usage/chown"))),
    Candidate("chpasswd", Applet("chpasswd", "chpasswd", CStyle("crate::loginutils::chpasswd::chcrate::loginutils::passwd::passwd_main"), DirUsrSbin, UsageFile("../usage/chpasswd"))),
    Candidate("chpst", Applet("chpst", "chpst", CStyle("crate::runit::chpst::chpst_main"), DirUsrBin, UsageFile("../usage/chpst"))),
    Candidate("chroot", Applet("chroot", "chroot", CStyle("crate::coreutils::chroot::chroot_main"), DirUsrSbin, UsageFile("../usage/chroot"))),
    Candidate("chrt", Applet("chrt", "chrt", CStyle("crate::util_linux::chrt::chrt_main"), DirUsrBin, UsageFile("../usage/chrt")))
  ]

  /** Pushes at applets/applet_tables.rs:330-369. */
  const Block07: seq<Candidate> := [
    Candidate("chvt", Applet("chvt", "chvt", CStyle("crate::console_tools::chvt::chvt_main"), DirUsrBin, UsageFile("../usage/chvt"))),
    Candidate("cksum", Applet("cksum", "cksum", CStyle("crate::coreutils::cksum::ckcrate::coreutils::sum::sum_main"), DirUsrBin, UsageFile("../usage/cksum"))),
    Candidate("clear", Applet("clear", "clear", CStyle("crate::console_tools::clear::clear_main"), DirUsrBin, UsageFile("../usage/clear"))),
    Candidate("cmp", Applet("cmp", "cmp", CStyle("crate::editors::cmp::cmp_main"), DirUsrBin, UsageFile("../usage/cmp"))),
    Candidate("comm", Applet("comm", "comm", CStyle("crate::coreutils::comm::comm_main"), DirUsrBin, UsageFile("../usage/comm")))
  ]

  /** Pushes at applets/applet_tables.rs:370-409. */
  const Block08: seq<Candidate> := [
    Candidate("conspy", Applet("conspy", "conspy", CStyle("crate::miscutils::conspy::conspy_main"), DirBin, UsageFile("../usage/conspy"))),
    Candidate("cp", Applet("cp", "cp", CStyle("crate::coreutils::cp::cp_main"), DirBin, UsageFile("../usage/cp"))),
    Candidate("cpio", Applet("cpio", "cpio", CStyle("crate::archival::cpio::cpio_main"), DirBin, UsageFile("../usage/cpio"))),
    Candidate("crond", Applet("crond", "crond", CStyle("crate::miscutils::crond::crond_main"), DirUsrSbin, UsageFile("../usage/crond"))),
    Candidate("crontab", Applet("crontab", "crontab", CStyle("crate::miscutils::crontab::crontab_main"), DirUsrBin, UsageFile("../usage/crontab")))
  ]

  /** Pushes at applets/applet_tables.rs:410-449. */
  const Block09: seq<Candidate> := [
    Candidate("cryptpw", Applet("cryptpw", "cryptpw", CStyle("crate::loginutils::cryptpw::cryptpw_main"), DirUsrBin, UsageFile("../usage/cryptpw"))),
    Candidate("cttyhack", Applet("cttyhack", "cttyhack", CStyle("crate::shell::cttyhack::cttyhack_main"), DirBin, UsageFile("../usage/cttyhack"))),
    Candidate("cut", Applet("cut", "cut", CStyle("crate::coreutils::cut::cut_main"), DirUsrBin, UsageFile("../usage/cut"))),
    Candidate("date", Applet("date", "date", CStyle("crate::coreutils::date::date_main"), DirBin, UsageFile("../usage/date"))),
    Candidate("dc", Applet("dc", "dc", CStyle("crate::miscutils::bc::dc_main"), DirUsrBin, UsageFile("../usage/dc")))
  ]

  /** Pushes at applets/applet_tables.rs:450-489. */
  const Block10: seq<Candidate> := [
    Candidate("dd", Applet("dd", "dd", CStyle("crate::coreutils::dd::dd_main"), DirBin, UsageFile("../usage/dd"))),
    Candidate("deallocvt", Applet("deallocvt", "deallocvt", CStyle("crate::console_tools::deallocvt::deallocvt_main"), DirUsrBin, UsageFile("../usage/deallocvt"))),
    Candidate("delgroup", Applet("delgroup", "deluser", CStyle("crate::loginutils::deluser::deluser_main"), DirUsrSbin, UsageFile("../usage/delgroup"))),
    Candidate("deluser", Applet("deluser", "deluser", CStyle("crate::loginutils::deluser::deluser_main"), DirUsrSbin, UsageFile("../usage/deluser"))),
    Candidate("depmod", Applet("depmod", "modprobe", CStyle("crate::modutils::modprobe_small::modprobe_main"), DirSbin, UsageFile("../usage/depmod")))
  ]

  /** Pushes at applets/applet_tables.rs:490-529. */
  const Block11: seq<Candidate> := [
    Candidate("devmem", Applet("devmem", "devmem", CStyle("crate::miscutils::devmem::devmem_main"), DirSbin, UsageFile("../usage/devmem"))),
    Candidate("df", Applet("df", "df", CStyle("crate::coreutils::df::df_main"), DirBin, UsageFile("../usage/df"))),
    Candidate("dhcprelay", Applet("dhcprelay", "dhcprelay", CStyle("crate::networking::udhcp::dhcprelay::dhcprelay_main"), DirUsrSbin, UsageFile("../usage/dhcprelay"))),
    Candidate("diff", Applet("diff", "diff", CStyle("crate::editors::diff::diff_main"), DirUsrBin, UsageFile("../usage/diff"))),
    Candidate("dirname", Applet("dirname", "dirname", CStyle("crate::coreutils::dirname::dirname_main"), DirUsrBin, UsageFile("../usage/dirname")))
  ]

  /** Pushes at applets/applet_tables.rs:530-569. */
  const Block12: seq<Candidate> := [
    Candidate("dmesg", Applet("dmesg", "dmesg", CStyle("crate::util_linux::dmesg::dcrate::util_linux::mesg::mesg_main"), DirBin, UsageFile("../usage/dmesg"))),
    Candidate("dnsd", Applet("dnsd", "dnsd", CStyle("crate::networking::dnsd::dnsd_main"), DirUsrSbin, UsageFile("../usage/dnsd"))),
    Candidate("dnsdomainname", Applet("dnsdomainname", "hostname", CStyle("crate::networking::hostname::hostname_main"), DirBin, UsageFile("../usage/dnsdomainname"))),
    Candidate("dos2unix", Applet("dos2unix", "dos2unix", CStyle("crate::coreutils::dos2unix::dos2unix_main"), DirUsrBin, UsageFile("../usage/dos2unix"))),
    Candidate("dpkg", Applet("dpkg", "dpkg", CStyle("crate::archival::dpkg_deb::dpkg_deb_main"), DirUsrBin, UsageFile("../usage/dpkg")))
  ]

  /** Pushes at applets/applet_tables.rs:570-609. */
  const Block13: seq<Candidate> := [
    Candidate("dpkg-deb", Applet("dpkg-deb", "dpkg_deb", CStyle("crate::archival::dpkg::dpkg_main"), DirUsrBin, UsageFile("../usage/dpkg-deb"))),
    Candidate("du", Applet("du", "du", CStyle("crate::coreutils::du::du_main"), DirUsrBin, UsageFile("../usage/du"))),
    Candidate("dumpkmap", Applet("dumpkmap", "dumpkmap", CStyle("crate::console_tools::dumpkmap::dumpkmap_main"), DirBin, UsageFile("../usage/dumpkmap"))),
    Candidate("dumpleases", Applet("dumpleases", "dumpleases", CStyle("crate::networking::udhcp::dumpleases::dumpleases_main"), DirUsrBin, UsageFile("../usage/dumpleases"))),
    Candidate("echo", Applet("echo", "echo", CStyle("crate::coreutils::echo::echo_main"), DirBin, UsageFile("../usage/echo")))
  ]

  /** Pushes at applets/applet_tables.rs:610-649. */
  const Block14: seq<Candidate> := [
    Candidate("ed", Applet("ed", "ed", CStyle("crate::editors::ed::ed_main"), DirBin, UsageFile("../usage/ed"))),
    Candidate("egrep", Applet("egrep", "grep", CStyle("crate::findutils::grep::grep_main"), DirBin, UsageFile("../usage/egrep"))),
    Candidate("eject", Applet("eject", "eject", CStyle("crate::util_linux::eject::eject_main"), DirUsrBin, UsageFile("../usage/eject"))),
    Candidate("env", Applet("env", "env", CStyle("crate::coreutils::env::env_main"), DirUsrBin, UsageFile("../usage/env"))),
    Candidate("envdir", Applet("envdir", "chpst", CStyle("crate::runit::chpst::chpst_main"), DirUsrBin, UsageFile("../usage/envdir")))
  ]

  /** Pushes at applets/applet_tables.rs:650-689. */
  const Block15: seq<Candidate> := [
    Candidate("envuidgid", Applet("envuidgid", "chpst", CStyle("crate::runit::chpst::chpst_main"), DirUsrBin, UsageFile("../usage/envuidgid"))),
    Candidate("ether-wake", Applet("ether-wake", "ether_wake", CStyle("crate::networking::ether_wake::ether_wake_main"), DirUsrSbin, UsageFile("../usage/ether-wake"))),
    Candidate("expand", Applet("expand", "expand", CStyle("crate::coreutils::expand::expand_main"), DirUsrBin, UsageFile("../usage/expand"))),
    Candidate("expr", Applet("expr", "expr", CStyle("crate::coreutils::expr::expr_main"), DirUsrBin, UsageFile("../usage/expr"))),
    Candidate("factor", Applet("factor", "factor", CStyle("crate::coreutils::factor::factor_main"), DirUsrBin, UsageFile("../usage/factor")))
  ]

  /** Pushes at applets/applet_tables.rs:690-729. */
  const Block16: seq<Candidate> := [
    Candidate("fakeidentd", Applet("fakeidentd", "fakeidentd", CStyle("crate::networking::isrv_identd::fakeidentd_main"), DirUsrSbin, UsageFile("../usage/fakeidentd"))),
    Candidate("fallocate", Applet("fallocate", "fallocate", CStyle("crate::util_linux::fallocate::fallocate_main"), DirUsrBin, UsageFile("../usage/fallocate"))),
    Candidate("false", Applet("false", "false", SafeStyle("crate::coreutils::r#false::false_main"), DirBin, UsageFile("../usage/false"))),
    Candidate("fatattr", Applet("fatattr", "fatattr", CStyle("fatatcrate::coreutils::tr::tr_main"), DirBin, UsageFile("../usage/fatattr"))),
    Candidate("fbset", Applet("fbset", "fbset", CStyle("crate::util_linux::fbset::fbset_main"), DirUsrSbin, UsageFile("../usage/fbset")))
  ]

  /** Pushes at applets/applet_tables.rs:730-769. */
  const Block17: seq<Candidate> := [
    Candidate("fbsplash", Applet("fbsplash", "fbsplash", CStyle("crate::miscutils::fbsplash::fbsplcrate::shell::ash::ash_main"), DirSbin, UsageFile("../usage/fbsplash"))),
    Candidate("fdflush", Applet("fdflush", "freeramdisk", CStyle("crate::util_linux::freeramdisk::freeramdisk_main"), DirBin, UsageFile("../usage/fdflush"))),
    Candidate("fdformat", Applet("fdformat", "fdformat", CStyle("crate::util_linux::fdformat::fdformat_main"), DirUsrSbin, UsageFile("../usage/fdformat"))),
    Candidate("fdisk", Applet("fdisk", "fdisk", CStyle("crate::util_linux::fdisk::fdisk_main"), DirSbin, UsageFile("../usage/fdisk"))),
    Candidate("fgconsole", Applet("fgconsole", "fgconsole", CStyle("crate::console_tools::fgconsole::fgconsole_main"), DirUsrBin, UsageFile("../usage/fgconsole")))
  ]

  /** Pushes at applets/applet_tables.rs:770-809. */
  const Block18: seq<Candidate> := [
    Candidate("fgrep", Applet("fgrep", "grep", CStyle("crate::findutils::grep::grep_main"), DirBin, UsageFile("../usage/fgrep"))),
    Candidate("find", Applet("find", "find", CStyle("crate::findutils::find::find_main"), DirUsrBin, UsageFile("../usage/find"))),
    Candidate("findfs", Applet("findfs", "findfs", CStyle("crate::util_linux::findfs::findfs_main"), DirSbin, UsageFile("../usage/findfs"))),
    Candidate("flock", Applet("flock", "flock", CStyle("crate::util_linux::flock::flock_main"), DirUsrBin, UsageFile("../usage/flock"))),
    Candidate("fold", Applet("fold", "fold", CStyle("crate::coreutils::fold::fold_main"), DirUsrBin, UsageFile("../usage/fold")))
  ]

  /** Pushes at applets/applet_tables.rs:810-849. */
  const Block19: seq<Candidate> := [
    Candidate("free", Applet("free", "free", CStyle("crate::procps::free::free_main"), DirUsrBin, UsageFile("../usage/free"))),
    Candidate("freeramdisk", Applet("freeramdisk", "freeramdisk", CStyle("crate::util_linux::freeramdisk::freeramdisk_main"), DirSbin, UsageFile("../usage/freeramdisk"))),
    Candidate("fsck", Applet("fsck", "fsck", CStyle("crate::util_linux::fsck_minix::fsck_minix_main"), DirSbin, UsageFile("../usage/fsck"))),
    Candidate("fsck_minix", Applet("fsck.minix", "fsck_minix", CStyle("crate::e2fsprogs::fsck::fsck_main"), DirSbin, UsageFile("../usage/fsck.minix"))),
    Candidate("fsfreeze", Applet("fsfreeze", "fsfreeze", CStyle("crate::util_linux::fsfreeze::fsfreeze_main"), DirUsrSbin, UsageFile("../usage/fsfreeze")))
  ]

  /** Pushes at applets/applet_tables.rs:850-889. */
  const Block20: seq<Candidate> := [
    Candidate("fstrim", Applet("fstrim", "fstrim", CStyle("crate::util_linux::fstrim::fstrim_main"), DirSbin, UsageFile("../usage/fstrim"))),
    Candidate("fsync", Applet("fsync", "fsync", CStyle("crate::coreutils::sync::fcrate::coreutils::sync::sycrate::networking::nc::nc_main"), DirBin, UsageFile("../usage/fsync"))),
    Candidate("ftpd", Applet("ftpd", "ftpd", CStyle("crate::networking::ftpd::ftpd_main"), DirUsrSbin, UsageFile("../usage/ftpd"))),
    Candidate("ftpget", Applet("ftpget", "ftpgetput", CStyle("crate::networking::ftpgetput::ftpgetput_main"), DirUsrBin, UsageFile("../usage/ftpget"))),
    Candidate("ftpput", Applet("ftpput", "ftpgetput", CStyle("crate::networking::ftpgetput::ftpgetput_main"), DirUsrBin, UsageFile("../usage/ftpput")))
  ]

  /** Pushes at applets/applet_tables.rs:890-929. */
  const Block21: seq<Candidate> := [
    Candidate("fuser", Applet("fuser", "fuser", CStyle("crate::procps::fuser::fuser_main"), DirUsrBin, UsageFile("../usage/fuser"))),
    Candidate("getopt", Applet("getopt", "getopt", CStyle("crate::util_linux::getopt::getopt_main"), DirBin, UsageFile("../usage/getopt"))),
    Candidate("getty", Applet("getty", "getty", CStyle("gecrate::coreutils::tty::tty_main"), DirSbin, UsageFile("../usage/getty"))),
    Candidate("grep", Applet("grep", "grep", CStyle("crate::findutils::grep::grep_main"), DirBin, UsageFile("../usage/grep"))),
    Candidate("groups", Applet("groups", "id", CStyle("crate::coreutils::id::id_main"), DirUsrBin, UsageFile("../usage/groups")))
  ]

  /** Pushes at applets/applet_tables.rs:930-969. */
  const Block22: seq<Candidate> := [
    Candidate("gunzip", Applet("gunzip", "gunzip", CStyle("crate::archival::bbunzip::gcrate::archival::unzip::unzcrate::networking::ip::ip_main"), DirBin, UsageFile("../usage/gunzip"))),
    Candidate("gzip", Applet("gzip", "gzip", CStyle("crate::archival::gzip::gzcrate::networking::ip::ip_main"), DirBin, UsageFile("../usage/gzip"))),
    Candidate("halt", Applet("halt", "halt", CStyle("crate::init::halt::halt_main"), DirSbin, UsageFile("../usage/halt"))),
    Candidate("hd", Applet("hd", "hexdump", CStyle("crate::util_linux::hexdump::hexdump_main"), DirUsrBin, UsageFile("../usage/hd"))),
    Candidate("hdparm", Applet("hdparm", "hdparm", CStyle("hdpacrate::coreutils::rm::rm_main"), DirSbin, UsageFile("../usage/hdparm")))
  ]

  /** Pushes at applets/applet_tables.rs:970-1009. */
  const Block23: seq<Candidate> := [
    Candidate("head", Applet("head", "head", CStyle("crate::coreutils::head::head_main"), DirUsrBin, UsageFile("../usage/head"))),
    Candidate("hexdump", Applet("hexdump", "hexdump", CStyle("crate::util_linux::hexdump::hexdump_main"), DirUsrBin, UsageFile("../usage/hexdump"))),
    Candidate("hexedit", Applet("hexedit", "hexedit", CStyle("crate::miscutils::hexedit::hexedit_main"), DirUsrBin, UsageFile("../usage/hexedit"))),
    Candidate("hostid", Applet("hostid", "hostid", CStyle("crate::coreutils::hostid::hostcrate::coreutils::id::id_main"), DirUsrBin, UsageFile("../usage/hostid"))),
    Candidate("hostname", Applet("hostname", "hostname", CStyle("crate::networking::hostname::hostname_main"), DirBin, UsageFile("../usage/hostname")))
  ]

  /** Pushes at applets/applet_tables.rs:1010-1049. */
  const Block24: seq<Candidate> := [
    Candidate("httpd", Applet("httpd", "httpd", CStyle("crate::networking::httpd::httpd_main"), DirUsrSbin, UsageFile("../usage/httpd"))),
    Candidate("hush", Applet("hush", "hush", CStyle("crate::shell::hush::hush_main"), DirBin, UsageFile("../usage/hush"))),
    Candidate("hwclock", Applet("hwclock", "hwclock", CStyle("crate::util_linux::hwclock::hwclock_main"), DirSbin, UsageFile("../usage/hwclock"))),
    Candidate("i2cdetect", Applet("i2cdetect", "i2cdetect", CStyle("crate::miscutils::i2c_tools::i2cdetect_main"), DirUsrSbin, UsageFile("../usage/i2cdetect"))),
    Candidate("i2cdump", Applet("i2cdump", "i2cdump", CStyle("crate::miscutils::i2c_tools::i2cdump_main"), DirUsrSbin, UsageFile("../usage/i2cdump")))
  ]

  /** Pushes at applets/applet_tables.rs:1050-1089. */
  const Block25: seq<Candidate> := [
    Candidate("i2cget", Applet("i2cget", "i2cget", CStyle("crate::miscutils::i2c_tools::i2cget_main"), DirUsrSbin, UsageFile("../usage/i2cget"))),
    Candidate("i2cset", Applet("i2cset", "i2cset", CStyle("crate::miscutils::i2c_tools::i2cset_main"), DirUsrSbin, UsageFile("../usage/i2cset"))),
    Candidate("i2ctransfer", Applet("i2ctransfer", "i2ctransfer", CStyle("crate::miscutils::i2c_tools::i2ctransfer_main"), DirUsrSbin, UsageFile("../usage/i2ctransfer"))),
    Candidate("id", Applet("id", "id", CStyle("crate::coreutils::id::id_main"), DirUsrBin, UsageFile("../usage/id"))),
    Candidate("ifconfig", Applet("ifconfig", "ifconfig", CStyle("crate::networking::ifconfig::ifconfig_main"), DirSbin, UsageFile("../usage/ifconfig")))
  ]

  /** Pushes at applets/applet_tables.rs:1090-1129. */
  const Block26: seq<Candidate> := [
    Candidate("ifdown", Applet("ifdown", "ifupdown", CStyle("crate::networking::ifupdown::ifupdown_main"), DirSbin, UsageFile("../usage/ifdown"))),
    Candidate("ifenslave", Applet("ifenslave", "ifenslave", CStyle("crate::networking::ifenslave::ifenslave_main"), DirSbin, UsageFile("../usage/ifenslave"))),
    Candidate("ifplugd", Applet("ifplugd", "ifplugd", CStyle("crate::networking::ifplugd::ifplugd_main"), DirUsrSbin, UsageFile("../usage/ifplugd"))),
    Candidate("ifup", Applet("ifup", "ifupdown", CStyle("crate::networking::ifupdown::ifupdown_main"), DirSbin, UsageFile("../usage/ifup"))),
    Candidate("inetd", Applet("inetd", "inetd", CStyle("crate::networking::inetd::inetd_main"), DirUsrSbin, UsageFile("../usage/inetd")))
  ]

  /** Pushes at applets/applet_tables.rs:1130-1169. */
  const Block27: seq<Candidate> := [
    Candidate("init", Applet("init", "init", CStyle("crate::init::init::init_main"), DirSbin, UsageFile("../usage/init"))),
    Candidate("insmod", Applet("insmod", "modprobe", CStyle("crate::modutils::modprobe_small::modprobe_main"), DirSbin, UsageFile("../usage/insmod"))),
    Candidate("install", Applet("install", "install", CStyle("crate::coreutils::install::install_main"), DirUsrBin, UsageFile("../usage/install"))),
    Candidate("ionice", Applet("ionice", "ionice", CStyle("iocrate::coreutils::nice::nice_main"), DirBin, UsageFile("../usage/ionice"))),
    Candidate("iostat", Applet("iostat", "iostat", CStyle("iocrate::coreutils::stat::stat_main"), DirBin, UsageFile("../usage/iostat")))
  ]

  /** Pushes at applets/applet_tables.rs:1170-1209. */
  const Block28: seq<Candidate> := [
    Candidate("ip", Applet("ip", "ip", CStyle("crate::networking::ip::ip_main"), DirSbin, UsageFile("../usage/ip"))),
    Candidate("ipaddr", Applet("ipaddr", "ipaddr", CStyle("crate::networking::ip::ipaddr_main"), DirSbin, UsageFile("../usage/ipaddr"))),
    Candidate("ipcalc", Applet("ipcalc", "ipcalc", CStyle("crate::networking::ipcalc::ipcalc_main"), DirBin, UsageFile("../usage/ipcalc"))),
    Candidate("ipcrm", Applet("ipcrm", "ipcrm", CStyle("ipccrate::coreutils::rm::rm_main"), DirUsrBin, UsageFile("../usage/ipcrm"))),
    Candidate("ipcs", Applet("ipcs", "ipcs", CStyle("crate::util_linux::ipcs::ipcs_main"), DirUsrBin, UsageFile("../usage/ipcs")))
  ]

  /** Pushes at applets/applet_tables.rs:1210-1249. */
  const Block29: seq<Candidate> := [
    Candidate("iplink", Applet("iplink", "iplink", CStyle("ipcrate::coreutils::link::link_main"), DirSbin, UsageFile("../usage/iplink"))),
    Candidate("ipneigh", Applet("ipneigh", "ipneigh", CStyle("crate::networking::ip::ipneigh_main"), DirSbin, UsageFile("../usage/ipneigh"))),
    Candidate("iproute", Applet("iproute", "iproute", CStyle("crate::networking::ip::ipcrate::networking::route::route_main"), DirSbin, UsageFile("../usage/iproute"))),
    Candidate("iprule", Applet("iprule", "iprule", CStyle("crate::networking::ip::iprule_main"), DirSbin, UsageFile("../usage/iprule"))),
    Candidate("iptunnel", Applet("iptunnel", "iptunnel", CStyle("crate::networking::ip::iptunnel_main"), DirSbin, UsageFile("../usage/iptunnel")))
  ]

  /** Pushes at applets/applet_tables.rs:1250-1289. */
  const Block30: seq<Candidate> := [
    Candidate("kbd_mode", Applet("kbd_mode", "kbd_mode", CStyle("crate::console_tools::kbd_mode::kbd_mode_main"), DirBin, UsageFile("../usage/kbd_mode"))),
    Candidate("kill", Applet("kill", "kill", CStyle("crate::procps::kill::kill_main"), DirBin, UsageFile("../usage/kill"))),
    Candidate("killall", Applet("killall", "kill", CStyle("crate::procps::kill::kill_main"), DirUsrBin, UsageFile("../usage/killall"))),
    Candidate("killall5", Applet("killall5", "kill", CStyle("crate::procps::kill::kill_main"), DirUsrSbin, UsageFile("../usage/killall5"))),
    Candidate("klogd", Applet("klogd", "klogd", CStyle("crate::sysklogd::klogd::klogd_main"), DirSbin, UsageFile("../usage/klogd")))
  ]

  /** Pushes at applets/applet_tables.rs:1290-1329. */
  const Block31: seq<Candidate> := [
    Candidate("last", Applet("last", "last", CStyle("crate::util_linux::last_fancy::last_main"), DirUsrBin, UsageFile("../usage/last"))),
    Candidate("less", Applet("less", "less", CStyle("crate::miscutils::less::less_main"), DirUsrBin, UsageFile("../usage/less"))),
    Candidate("link", Applet("link", "link", CStyle("crate::coreutils::link::link_main"), DirBin, UsageFile("../usage/link"))),
    Candidate("linux32", Applet("linux32", "setarch", CStyle("crate::util_linux::setarch::setarch_main"), DirBin, UsageFile("../usage/linux32"))),
    Candidate("linux64", Applet("linux64", "setarch", CStyle("crate::util_linux::setarch::setarch_main"), DirBin, UsageFile("../usage/linux64")))
  ]

  /** Pushes at applets/applet_tables.rs:1330-1369. */
  const Block32: seq<Candidate> := [
    Candidate("linuxrc", Applet("linuxrc", "init", CStyle("crate::init::init::init_main"), DirRoot, UsageFile("../usage/linuxrc"))),
    Candidate("ln", Applet("ln", "ln", CStyle("crate::coreutils::ln::ln_main"), DirBin, UsageFile("../usage/ln"))),
    Candidate("loadfont", Applet("loadfont", "loadfont", CStyle("crate::console_tools::loadfont::loadfont_main"), DirUsrSbin, UsageFile("../usage/loadfont"))),
    Candidate("loadkmap", Applet("loadkmap", "loadkmap", CStyle("crate::console_tools::loadkmap::loadkmap_main"), DirSbin, UsageFile("../usage/loadkmap"))),
    Candidate("logger", Applet("logger", "logger", CStyle("crate::sysklogd::syslogd_and_logger::logger_main"), DirUsrBin, UsageFile("../usage/logger")))
  ]

  /** Pushes at applets/applet_tables.rs:1370-1409. */
  const Block33: seq<Candidate> := [
    Candidate("login", Applet("login", "login", CStyle("crate::loginutils::login::login_main"), DirBin, UsageFile("../usage/login"))),
    Candidate("logname", Applet("logname", "logname", CStyle("crate::coreutils::logname::logname_main"), DirUsrBin, UsageFile("../usage/logname"))),
    Candidate("logread", Applet("logread", "logread", CStyle("crate::sysklogd::logread::logread_main"), DirSbin, UsageFile("../usage/logread"))),
    Candidate("losetup", Applet("losetup", "losetup", CStyle("crate::util_linux::losetup::losetup_main"), DirSbin, UsageFile("../usage/losetup"))),
    Candidate("lpd", Applet("lpd", "lpd", CStyle("crate::printutils::lpd::lpd_main"), DirUsrSbin, UsageFile("../usage/lpd")))
  ]

  /** Pushes at applets/applet_tables.rs:1410-1449. */
  const Block34: seq<Candidate> := [
    Candidate("lpq", Applet("lpq", "lpqr", CStyle("crate::printutils::lpr::lpqr_main"), DirUsrBin, UsageFile("../usage/lpq"))),
    Candidate("lpr", Applet("lpr", "lpqr", CStyle("crate::printutils::lpr::lpqr_main"), DirUsrBin, UsageFile("../usage/lpr"))),
    Candidate("ls", Applet("ls", "ls", CStyle("crate::coreutils::ls::ls_main"), DirBin, UsageFile("../usage/ls"))),
    Candidate("lsattr", Applet("lsattr", "lsattr", CStyle("lsatcrate::coreutils::tr::tr_main"), DirBin, UsageFile("../usage/lsattr"))),
    Candidate("lsmod", Applet("lsmod", "lsmod", CStyle("lsmcrate::coreutils::od::od_main"), DirSbin, UsageFile("../usage/lsmod")))
  ]

  /** Pushes at applets/applet_tables.rs:1450-1489. */
  const Block35: seq<Candidate> := [
    Candidate("lsof", Applet("lsof", "lsof", CStyle("crate::procps::lsof::lsof_main"), DirUsrBin, UsageFile("../usage/lsof"))),
    Candidate("lspci", Applet("lspci", "lspci", CStyle("crate::util_linux::lspci::lspci_main"), DirUsrBin, UsageFile("../usage/lspci"))),
    Candidate("lsscsi", Applet("lsscsi", "lsscsi", CStyle("crate::miscutils::lsscsi::lsscsi_main"), DirUsrBin, UsageFile("../usage/lsscsi"))),
    Candidate("lsusb", Applet("lsusb", "lsusb", CStyle("crate::util_linux::lsusb::lsusb_main"), DirUsrBin, UsageFile("../usage/lsusb"))),
    Candidate("lzcat", Applet("lzcat", "unlzma", CStyle("crate::archival::bbunzip::unlzma_main"), DirUsrBin, UsageFile("../usage/lzcat")))
  ]

  /** Pushes at applets/applet_tables.rs:1490-1529. */
  const Block36: seq<Candidate> := [
    Candidate("lzma", Applet("lzma", "unlzma", CStyle("crate::archival::bbunzip::unlzma_main"), DirUsrBin, UsageFile("../usage/lzma"))),
    Candidate("lzop", Applet("lzop", "lzop", CStyle("crate::archival::lzop::lzop_main"), DirBin, UsageFile("../usage/lzop"))),
    Candidate("makedevs", Applet("makedevs", "makedevs", CStyle("crate::miscutils::makedevs::makedevs_main"), DirSbin, UsageFile("../usage/makedevs"))),
    Candidate("makemime", Applet("makemime", "makemime", CStyle("crate::mailutils::makemime::makemime_main"), DirBin, UsageFile("../usage/makemime"))),
    Candidate("man", Applet("man", "man", CStyle("crate::miscutils::man::man_main"), DirUsrBin, UsageFile("../usage/man")))
  ]

  /** Pushes at applets/applet_tables.rs:1530-1569. */
  const Block37: seq<Candidate> := [
    Candidate("md5sum", Applet("md5sum", "md5_sha1_sum", CStyle("crate::coreutils::md5_sha1_sum::md5_sha1_crate::coreutils::sum::sum_main"), DirUsrBin, UsageFile("../usage/md5sum"))),
    Candidate("mdev", Applet("mdev", "mdev", CStyle("crate::util_linux::mdev::mdev_main"), DirSbin, UsageFile("../usage/mdev"))),
    Candidate("mesg", Applet("mesg", "mesg", CStyle("crate::util_linux::mesg::mesg_main"), DirUsrBin, UsageFile("../usage/mesg"))),
    Candidate("microcom", Applet("microcom", "microcom", CStyle("crate::miscutils::microcom::microcom_main"), DirUsrBin, UsageFile("../usage/microcom"))),
    Candidate("mkdir", Applet("mkdir", "mkdir", CStyle("crate::coreutils::mkdir::mkdir_main"), DirBin, UsageFile("../usage/mkdir")))
  ]

  /** Pushes at applets/applet_tables.rs:1570-1609. */
  const Block38: seq<Candidate> := [
    Candidate("mkdosfs", Applet("mkdosfs", "mkfs_vfat", CStyle("crate::util_linux::mkfs_vfat::mkfs_vfat_main"), DirSbin, UsageFile("../usage/mkdosfs"))),
    Candidate("mke2fs", Applet("mke2fs", "mkfs_ext2", CStyle("crate::util_linux::mkfs_ext2::mkfs_ext2_main"), DirSbin, UsageFile("../usage/mke2fs"))),
    Candidate("mkfifo", Applet("mkfifo", "mkfifo", CStyle("crate::coreutils::mkfifo::mkfifo_main"), DirUsrBin, UsageFile("../usage/mkfifo"))),
    Candidate("mkfs_ext2", Applet("mkfs.ext2", "mkfs_ext2", CStyle("crate::util_linux::mkfs_ext2::mkfs_ext2_main"), DirSbin, UsageFile("../usage/mkfs.ext2"))),
    Candidate("mkfs_minix", Applet("mkfs.minix", "mkfs_minix", CStyle("crate::util_linux::mkfs_minix::mkfs_minix_main"), DirSbin, UsageFile("../usage/mkfs.minix")))
  ]

  /** Pushes at applets/applet_tables.rs:1610-1649. */
  const Block39: seq<Candidate> := [
    Candidate("mkfs_vfat", Applet("mkfs.vfat", "mkfs_vfat", CStyle("crate::util_linux::mkfs_vfat::mkfs_vfat_main"), DirSbin, UsageFile("../usage/mkfs.vfat"))),
    Candidate("mknod", Applet("mknod", "mknod", CStyle("crate::coreutils::mknod::mkncrate::coreutils::od::od_main"), DirBin, UsageFile("../usage/mknod"))),
    Candidate("mkpasswd", Applet("mkpasswd", "cryptpw", CStyle("crate::loginutils::cryptpw::cryptpw_main"), DirUsrBin, UsageFile("../usage/mkpasswd"))),
    Candidate("mkswap", Applet("mkswap", "mkswap", CStyle("crate::util_linux::mkswap::mkswap_main"), DirSbin, UsageFile("../usage/mkswap"))),
    Candidate("mktemp", Applet("mktemp", "mktemp", CStyle("crate::coreutils::mktemp::mktemp_main"), DirBin, UsageFile("../usage/mktemp")))
  ]

  /** Pushes at applets/applet_tables.rs:1650-1689. */
  const Block40: seq<Candidate> := [
    Candidate("modinfo", Applet("modinfo", "modinfo", CStyle("crate::modutils::modinfo::modinfo_main"), DirSbin, UsageFile("../usage/modinfo"))),
    Candidate("modprobe", Applet("modprobe", "modprobe", CStyle("crate::modutils::modprobe_small::modprobe_main"), DirSbin, UsageFile("../usage/modprobe"))),
    Candidate("more", Applet("more", "more", CStyle("crate::util_linux::more::more_main"), DirBin, UsageFile("../usage/more"))),
    Candidate("mount", Applet("mount", "mount", CStyle("crate::util_linux::mount::mount_main"), DirBin, UsageFile("../usage/mount"))),
    Candidate("mountpoint", Applet("mountpoint", "mountpoint", CStyle("crate::util_linux::mountpoint::mountpoint_main"), DirBin, UsageFile("../usage/mountpoint")))
  ]

  /** Pushes at applets/applet_tables.rs:1690-1729. */
  const Block41: seq<Candidate> := [
    Candidate("mpstat", Applet("mpstat", "mpstat", CStyle("mpcrate::coreutils::stat::stat_main"), DirBin, UsageFile("../usage/mpstat"))),
    Candidate("mt", Applet("mt", "mt", CStyle("crate::miscutils::mt::mt_main"), DirBin, UsageFile("../usage/mt"))),
    Candidate("mv", Applet("mv", "mv", CStyle("crate::coreutils::mv::mv_main"), DirBin, UsageFile("../usage/mv"))),
    Candidate("nameif", Applet("nameif", "nameif", CStyle("crate::networking::nameif::nameif_main"), DirSbin, UsageFile("../usage/nameif"))),
    Candidate("nanddump", Applet("nanddump", "nandwrite", CStyle("crate::miscutils::nandwrite::nandwrite_main"), DirUsrSbin, UsageFile("../usage/nanddump")))
  ]

  /** Pushes at applets/applet_tables.rs:1730-1769. */
  const Block42: seq<Candidate> := [
    Candidate("nandwrite", Applet("nandwrite", "nandwrite", CStyle("crate::miscutils::nandwrite::nandwrite_main"), DirUsrSbin, UsageFile("../usage/nandwrite"))),
    Candidate("nbd-client", Applet("nbd-client", "nbdclient", CStyle("crate::networking::nbd_client::nbdclient_main"), DirUsrSbin, UsageFile("../usage/nbd-client"))),
    Candidate("nc", Applet("nc", "nc", CStyle("crate::networking::nc::nc_main"), DirUsrBin, UsageFile("../usage/nc"))),
    Candidate("netstat", Applet("netstat", "netstat", CStyle("netcrate::coreutils::stat::stat_main"), DirBin, UsageFile("../usage/netstat"))),
    Candidate("nice", Applet("nice", "nice", CStyle("crate::coreutils::nice::nice_main"), DirBin, UsageFile("../usage/nice")))
  ]

  /** Pushes at applets/applet_tables.rs:1770-1809. */
  const Block43: seq<Candidate> := [
    Candidate("nl", Applet("nl", "nl", CStyle("crate::coreutils::nl::nl_main"), DirUsrBin, UsageFile("../usage/nl"))),
    Candidate("nmeter", Applet("nmeter", "nmeter", CStyle("crate::procps::nmeter::nmeter_main"), DirUsrBin, UsageFile("../usage/nmeter"))),
    Candidate("nohup", Applet("nohup", "nohup", CStyle("crate::coreutils::nohup::nohup_main"), DirUsrBin, UsageFile("../usage/nohup"))),
    Candidate("nproc", Applet("nproc", "nproc", CStyle("crate::coreutils::nproc::nproc_main"), DirUsrBin, UsageFile("../usage/nproc"))),
    Candidate("nsenter", Applet("nsenter", "nsenter", CStyle("crate::util_linux::nsenter::nsenter_main"), DirUsrBin, UsageFile("../usage/nsenter")))
  ]

  /** Pushes at applets/applet_tables.rs:1810-1849. */
  const Block44: seq<Candidate> := [
    Candidate("nslookup", Applet("nslookup", "nslookup", CStyle("crate::networking::nslookup::nslookup_main"), DirUsrBin, UsageFile("../usage/nslookup"))),
    Candidate("ntpd", Applet("ntpd", "ntpd", CStyle("crate::networking::ntpd::ntpd_main"), DirUsrSbin, UsageFile("../usage/ntpd"))),
    Candidate("nuke", Applet("nuke", "nuke", CStyle("crate::klibc_utils::nuke::nuke_main"), DirBin, UsageFile("../usage/nuke"))),
    Candidate("od", Applet("od", "od", CStyle("crate::coreutils::od::od_main"), DirUsrBin, UsageFile("../usage/od"))),
    Candidate("openvt", Applet("openvt", "openvt", CStyle("crate::console_tools::openvt::openvt_main"), DirUsrBin, UsageFile("../usage/openvt")))
  ]

  /** Pushes at applets/applet_tables.rs:1850-1889. */
  const Block45: seq<Candidate> := [
    Candidate("partprobe", Applet("partprobe", "partprobe", CStyle("crate::miscutils::partprobe::partprobe_main"), DirUsrSbin, UsageFile("../usage/partprobe"))),
    Candidate("passwd", Applet("passwd", "passwd", CStyle("crate::loginutils::passwd::passwd_main"), DirUsrBin, UsageFile("../usage/passwd"))),
    Candidate("paste", Applet("paste", "paste", CStyle("crate::coreutils::paste::paste_main"), DirUsrBin, UsageFile("../usage/paste"))),
    Candidate("patch", Applet("patch", "patch", CStyle("crate::editors::patch::patch_main"), DirUsrBin, UsageFile("../usage/patch"))),
    Candidate("pgrep", Applet("pgrep", "pgrep", CStyle("pcrate::findutils::grep::grep_main"), DirUsrBin, UsageFile("../usage/pgrep")))
  ]

  /** Pushes at applets/applet_tables.rs:1890-1929. */
  const Block46: seq<Candidate> := [
    Candidate("pidof", Applet("pidof", "pidof", CStyle("crate::procps::pidof::pidof_main"), DirBin, UsageFile("../usage/pidof"))),
    Candidate("ping", Applet("ping", "ping", CStyle("crate::networking::ping::ping_main"), DirBin, UsageFile("../usage/ping"))),
    Candidate("ping6", Applet("ping6", "ping6", CStyle("crate::networking::ping::ping6_main"), DirBin, UsageFile("../usage/ping6"))),
    Candidate("pipe_progress", Applet("pipe_progress", "pipe_progress", CStyle("crate::debianutils::pipe_progress::pipe_progress_main"), DirBin, UsageFile("../usage/pipe_progress"))),
    Candidate("pivot_root", Applet("pivot_root", "pivot_root", CStyle("crate::util_linux::pivot_root::pivot_root_main"), DirSbin, UsageFile("../usage/pivot_root")))
  ]

  /** Pushes at applets/applet_tables.rs:1930-1969. */
  const Block47: seq<Candidate> := [
    Candidate("pkill", Applet("pkill", "pgrep", CStyle("pcrate::findutils::grep::grep_main"), DirUsrBin, UsageFile("../usage/pkill"))),
    Candidate("pmap", Applet("pmap", "pmap", CStyle("crate::procps::pmap::pmap_main"), DirUsrBin, UsageFile("../usage/pmap"))),
    Candidate("popmaildir", Applet("popmaildir", "popmaildir", CStyle("crate::mailutils::popmaildir::popmaildir_main"), DirUsrSbin, UsageFile("../usage/popmaildir"))),
    Candidate("poweroff", Applet("poweroff", "halt", CStyle("crate::init::halt::halt_main"), DirSbin, UsageFile("../usage/poweroff"))),
    Candidate("powertop", Applet("powertop", "powertop", CStyle("crate::procps::powertop::powercrate::procps::top::top_main"), DirUsrSbin, UsageFile("../usage/powertop")))
  ]

  /** Pushes at applets/applet_tables.rs:1970-2009. */
  const Block48: seq<Candidate> := [
    Candidate("printenv", Applet("printenv", "printenv", CStyle("printcrate::coreutils::env::env_main"), DirBin, UsageFile("../usage/printenv"))),
    Candidate("printf", Applet("printf", "printf", CStyle("crate::coreutils::printf::printf_main"), DirUsrBin, UsageFile("../usage/printf"))),
    Candidate("ps", Applet("ps", "ps", CStyle("crate::procps::ps::ps_main"), DirBin, UsageFile("../usage/ps"))),
    Candidate("pscan", Applet("pscan", "pscan", CStyle("crate::networking::pscan::pscan_main"), DirUsrBin, UsageFile("../usage/pscan"))),
    Candidate("pstree", Applet("pstree", "pstree", CStyle("crate::procps::pstree::pstree_main"), DirUsrBin, UsageFile("../usage/pstree")))
  ]

  /** Pushes at applets/applet_tables.rs:2010-2049. */
  const Block49: seq<Candidate> := [
    Candidate("pwd", Applet("pwd", "pwd", CStyle("crate::coreutils::pwd::pwd_main"), DirBin, UsageFile("../usage/pwd"))),
    Candidate("pwdx", Applet("pwdx", "pwdx", CStyle("crate::procps::pwdx::pwdx_main"), DirUsrBin, UsageFile("../usage/pwdx"))),
    Candidate("raidautorun", Applet("raidautorun", "raidautorun", CStyle("crate::miscutils::raidautorun::raidautorun_main"), DirSbin, UsageFile("../usage/raidautorun"))),
    Candidate("rdate", Applet("rdate", "rdate", CStyle("rcrate::coreutils::date::date_main"), DirUsrSbin, UsageFile("../usage/rdate"))),
    Candidate("rdev", Applet("rdev", "rdev", CStyle("crate::util_linux::rdev::rdev_main"), DirUsrSbin, UsageFile("../usage/rdev")))
  ]

  /** Pushes at applets/applet_tables.rs:2050-2089. */
  const Block50: seq<Candidate> := [
    Candidate("readahead", Applet("readahead", "readahead", CStyle("readacrate::coreutils::head::head_main"), DirUsrSbin, UsageFile("../usage/readahead"))),
    Candidate("readlink", Applet("readlink", "readlink", CStyle("readcrate::coreutils::link::link_main"), DirUsrBin, UsageFile("../usage/readlink"))),
    Candidate("readprofile", Applet("readprofile", "readprofile", CStyle("crate::util_linux::readprofile::readprofile_main"), DirUsrSbin, UsageFile("../usage/readprofile"))),
    Candidate("realpath", Applet("realpath", "realpath", CStyle("crate::coreutils::realpath::realpath_main"), DirUsrBin, UsageFile("../usage/realpath"))),
    Candidate("reboot", Applet("reboot", "halt", CStyle("crate::init::halt::halt_main"), DirSbin, UsageFile("../usage/reboot")))
  ]

  /** Pushes at applets/applet_tables.rs:2090-2129. */
  const Block51: seq<Candidate> := [
    Candidate("reformime", Applet("reformime", "reformime", CStyle("crate::mailutils::reformime::reformime_main"), DirBin, UsageFile("../usage/reformime"))),
    Candidate("remove-shell", Applet("remove-shell", "add_remove_shell", CStyle("crate::loginutils::add_remove_shell::add_remove_shell_main"), DirUsrSbin, UsageFile("../usage/remove-shell"))),
    Candidate("renice", Applet("renice", "renice", CStyle("recrate::coreutils::nice::nice_main"), DirUsrBin, UsageFile("../usage/renice"))),
    Candidate("reset", Applet("reset", "reset", CStyle("crate::console_tools::reset::reset_main"), DirUsrBin, UsageFile("../usage/reset"))),
    Candidate("resize", Applet("resize", "resize", CStyle("crate::console_tools::resize::resize_main"), DirUsrBin, UsageFile("../usage/resize")))
  ]

  /** Pushes at applets/applet_tables.rs:2130-2169. */
  const Block52: seq<Candidate> := [
    Candidate("resume", Applet("resume", "resume", CStyle("crate::klibc_utils::resume::resume_main"), DirBin, UsageFile("../usage/resume"))),
    Candidate("rev", Applet("rev", "rev", CStyle("crate::util_linux::rev::rev_main"), DirBin, UsageFile("../usage/rev"))),
    Candidate("rm", Applet("rm", "rm", CStyle("crate::coreutils::rm::rm_main"), DirBin, UsageFile("../usage/rm"))),
    Candidate("rmdir", Applet("rmdir", "rmdir", CStyle("crate::coreutils::rmdir::rmdir_main"), DirBin, UsageFile("../usage/rmdir"))),
    Candidate("rmmod", Applet("rmmod", "modprobe", CStyle("crate::modutils::modprobe_small::modprobe_main"), DirSbin, UsageFile("../usage/rmmod")))
  ]

  /** Pushes at applets/applet_tables.rs:2170-2209. */
  const Block53: seq<Candidate> := [
    Candidate("route", Applet("route", "route", CStyle("crate::networking::route::route_main"), DirSbin, UsageFile("../usage/route"))),
    Candidate("rpm", Applet("rpm", "rpm", CStyle("crate::archival::rpm::rpm_main"), DirBin, UsageFile("../usage/rpm"))),
    Candidate("rpm2cpio", Applet("rpm2cpio", "rpm2cpio", CStyle("rpm2crate::archival::cpio::cpio_main"), DirUsrBin, UsageFile("../usage/rpm2cpio"))),
    Candidate("rtcwake", Applet("rtcwake", "rtcwake", CStyle("crate::util_linux::rtcwake::rtcwake_main"), DirUsrSbin, UsageFile("../usage/rtcwake"))),
    Candidate("run-init", Applet("run-init", "switch_root", CStyle("crate::util_linux::switch_root::switch_root_main"), DirSbin, UsageFile("../usage/run-init")))
  ]

  /** Pushes at applets/applet_tables.rs:2210-2249. */
  const Block54: seq<Candidate> := [
    Candidate("run-parts", Applet("run-parts", "run_parts", CStyle("crate::debianutils::run_parts::run_parcrate::miscutils::ts::ts_main"), DirBin, UsageFile("../usage/run-parts"))),
    Candidate("runlevel", Applet("runlevel", "runlevel", CStyle("crate::miscutils::runlevel::runlevel_main"), DirSbin, UsageFile("../usage/runlevel"))),
    Candidate("runsv", Applet("runsv", "runsv", CStyle("crate::runit::runsv::runcrate::runit::sv::sv_main"), DirUsrBin, UsageFile("../usage/runsv"))),
    Candidate("runsvdir", Applet("runsvdir", "runsvdir", CStyle("crate::runit::runsvdir::runsvdir_main"), DirUsrBin, UsageFile("../usage/runsvdir"))),
    Candidate("rx", Applet("rx", "rx", CStyle("crate::miscutils::rx::rx_main"), DirUsrBin, UsageFile("../usage/rx")))
  ]

  /** Pushes at applets/applet_tables.rs:2250-2289. */
  const Block55: seq<Candidate> := [
    Candidate("script", Applet("script", "script", CStyle("crate::util_linux::script::script_main"), DirUsrBin, UsageFile("../usage/script"))),
    Candidate("scriptreplay", Applet("scriptreplay", "scriptreplay", CStyle("crate::util_linux::scriptreplay::scriptreplay_main"), DirBin, UsageFile("../usage/scriptreplay"))),
    Candidate("sed", Applet("sed", "sed", CStyle("scrate::editors::ed::ed_main"), DirBin, UsageFile("../usage/sed"))),
    Candidate("sendmail", Applet("sendmail", "sendmail", CStyle("crate::mailutils::sendmail::sendmail_main"), DirUsrSbin, UsageFile("../usage/sendmail"))),
    Candidate("seq", Applet("seq", "seq", CStyle("crate::coreutils::seq::seq_main"), DirUsrBin, UsageFile("../usage/seq")))
  ]

  /** Pushes at applets/applet_tables.rs:2290-2329. */
  const Block56: seq<Candidate> := [
    Candidate("setarch", Applet("setarch", "setarch", CStyle("crate::util_linux::setarch::setarch_main"), DirBin, UsageFile("../usage/setarch"))),
    Candidate("setconsole", Applet("setconsole", "setconsole", CStyle("crate::console_tools::setconsole::setconsole_main"), DirSbin, UsageFile("../usage/setconsole"))),
    Candidate("setfattr", Applet("setfattr", "setfattr", CStyle("setfatcrate::coreutils::tr::tr_main"), DirUsrBin, UsageFile("../usage/setfattr"))),
    Candidate("setfont", Applet("setfont", "setfont", CStyle("crate::console_tools::loadfont::setfont_main"), DirUsrSbin, UsageFile("../usage/setfont"))),
    Candidate("setkeycodes", Applet("setkeycodes", "setkeycodes", CStyle("crate::console_tools::setkeycodes::setkeycodes_main"), DirUsrBin, UsageFile("../usage/setkeycodes")))
  ]

  /** Pushes at applets/applet_tables.rs:2330-2369. */
  const Block57: seq<Candidate> := [
    Candidate("setlogcons", Applet("setlogcons", "setlogcons", CStyle("crate::console_tools::setlogcons::setlogcons_main"), DirUsrSbin, UsageFile("../usage/setlogcons"))),
    Candidate("setpriv", Applet("setpriv", "setpriv", CStyle("crate::util_linux::setpriv::setpriv_main"), DirBin, UsageFile("../usage/setpriv"))),
    Candidate("setserial", Applet("setserial", "setserial", CStyle("crate::miscutils::setserial::setserial_main"), DirBin, UsageFile("../usage/setserial"))),
    Candidate("setsid", Applet("setsid", "setsid", CStyle("setscrate::coreutils::id::id_main"), DirUsrBin, UsageFile("../usage/setsid"))),
    Candidate("setuidgid", Applet("setuidgid", "chpst", CStyle("crate::runit::chpst::chpst_main"), DirUsrBin, UsageFile("../usage/setuidgid")))
  ]

  /** Pushes at applets/applet_tables.rs:2370-2409. */
  const Block58: seq<Candidate> := [
    Candidate("sh", Applet("sh", "ash", CStyle("crate::shell::ash::ash_main"), DirBin, UsageFile("../usage/sh"))),
    Candidate("sha1sum", Applet("sha1sum", "md5_sha1_sum", CStyle("crate::coreutils::md5_sha1_sum::md5_sha1_crate::coreutils::sum::sum_main"), DirUsrBin, UsageFile("../usage/sha1sum"))),
    Candidate("sha256sum", Applet("sha256sum", "md5_sha1_sum", CStyle("crate::coreutils::md5_sha1_sum::md5_sha1_crate::coreutils::sum::sum_main"), DirUsrBin, UsageFile("../usage/sha256sum"))),
    Candidate("sha3sum", Applet("sha3sum", "md5_sha1_sum", CStyle("crate::coreutils::md5_sha1_sum::md5_sha1_crate::coreutils::sum::sum_main"), DirUsrBin, UsageFile("../usage/sha3sum"))),
    Candidate("sha512sum", Applet("sha512sum", "md5_sha1_sum", CStyle("crate::coreutils::md5_sha1_sum::md5_sha1_crate::coreutils::sum::sum_main"), DirUsrBin, UsageFile("../usage/sha512sum")))
  ]

  /** Pushes at applets/applet_tables.rs:2410-2449. */
  const Block59: seq<Candidate> := [
    Candidate("showkey", Applet("showkey", "showkey", CStyle("crate::console_tools::showkey::showkey_main"), DirUsrBin, UsageFile("../usage/showkey"))),
    Candidate("shred", Applet("shred", "shred", CStyle("crate::coreutils::shred::shrcrate::editors::ed::ed_main"), DirUsrBin, UsageFile("../usage/shred"))),
    Candidate("shuf", Applet("shuf", "shuf", CStyle("crate::coreutils::shuf::shuf_main"), DirUsrBin, UsageFile("../usage/shuf"))),
    Candidate("slattach", Applet("slattach", "slattach", CStyle("crate::networking::slattach::slattach_main"), DirSbin, UsageFile("../usage/slattach"))),
    Candidate("sleep", Applet("sleep", "sleep", CStyle("crate::coreutils::sleep::sleep_main"), DirBin, UsageFile("../usage/sleep")))
  ]

  /** Pushes at applets/applet_tables.rs:2450-2489. */
  const Block60: seq<Candidate> := [
    Candidate("smemcap", Applet("smemcap", "smemcap", CStyle("crate::procps::smemcap::smemcap_main"), DirUsrBin, UsageFile("../usage/smemcap"))),
    Candidate("softlimit", Applet("softlimit", "chpst", CStyle("crate::runit::chpst::chpst_main"), DirUsrBin, UsageFile("../usage/softlimit"))),
    Candidate("sort", Applet("sort", "sort", CStyle("crate::coreutils::sort::sort_main"), DirUsrBin, UsageFile("../usage/sort"))),
    Candidate("split", Applet("split", "split", CStyle("crate::coreutils::split::split_main"), DirUsrBin, UsageFile("../usage/split"))),
    Candidate("ssl_client", Applet("ssl_client", "ssl_client", CStyle("crate::networking::ssl_client::ssl_client_main"), DirUsrBin, UsageFile("../usage/ssl_client")))
  ]

  /** Pushes at applets/applet_tables.rs:2490-2529. */
  const Block61: seq<Candidate> := [
    Candidate("start-stop-daemon", Applet("start-stop-daemon", "start_stop_daemon", CStyle("crate::debianutils::start_stop_daemon::start_stop_daemon_main"), DirSbin, UsageFile("../usage/start-stop-daemon"))),
    Candidate("stat", Applet("stat", "stat", CStyle("crate::coreutils::stat::stat_main"), DirBin, UsageFile("../usage/stat"))),
    Candidate("strings", Applet("strings", "strings", CStyle("crate::miscutils::strings::strings_main"), DirUsrBin, UsageFile("../usage/strings"))),
    Candidate("stty", Applet("stty", "stty", CStyle("crate::coreutils::stty::scrate::coreutils::tty::tty_main"), DirBin, UsageFile("../usage/stty"))),
    Candidate("su", Applet("su", "su", CStyle("crate::loginutils::su::su_main"), DirBin, UsageFile("../usage/su")))
  ]

  /** Pushes at applets/applet_tables.rs:2530-2569. */
  const Block62: seq<Candidate> := [
    Candidate("sulogin", Applet("sulogin", "sulogin", CStyle("sucrate::loginutils::login::login_main"), DirSbin, UsageFile("../usage/sulogin"))),
    Candidate("sum", Applet("sum", "sum", CStyle("crate::coreutils::sum::sum_main"), DirUsrBin, UsageFile("../usage/sum"))),
    Candidate("sv", Applet("sv", "sv", CStyle("crate::runit::sv::sv_main"), DirUsrBin, UsageFile("../usage/sv"))),
    Candidate("svc", Applet("svc", "svc", CStyle("crate::runit::sv::svc_main"), DirUsrBin, UsageFile("../usage/svc"))),
    Candidate("svlogd", Applet("svlogd", "svlogd", CStyle("crate::runit::svlogd::svlogd_main"), DirUsrSbin, UsageFile("../usage/svlogd")))
  ]

  /** Pushes at applets/applet_tables.rs:2570-2609. */
  const Block63: seq<Candidate> := [
    Candidate("svok", Applet("svok", "svok", CStyle("crate::runit::sv::svok_main"), DirUsrBin, UsageFile("../usage/svok"))),
    Candidate("swapoff", Applet("swapoff", "swap_on_off", CStyle("crate::util_linux::swaponoff::swap_on_off_main"), DirSbin, UsageFile("../usage/swapoff"))),
    Candidate("swapon", Applet("swapon", "swap_on_off", CStyle("crate::util_linux::swaponoff::swap_on_off_main"), DirSbin, UsageFile("../usage/swapon"))),
    Candidate("switch_root", Applet("switch_root", "switch_root", CStyle("crate::util_linux::switch_root::switch_root_main"), DirSbin, UsageFile("../usage/switch_root"))),
    Candidate("sync", Applet("sync", "sync", CStyle("crate::coreutils::sync::sycrate::networking::nc::nc_main"), DirBin, UsageFile("../usage/sync")))
  ]

  /** Pushes at applets/applet_tables.rs:2610-2649. */
  const Block64: seq<Candidate> := [
    Candidate("sysctl", Applet("sysctl", "sysctl", CStyle("crate::procps::sysctl::sysctl_main"), DirSbin, UsageFile("../usage/sysctl"))),
    Candidate("syslogd", Applet("syslogd", "syslogd", CStyle("crate::sysklogd::syslogd_and_logger::syslogd_main"), DirSbin, UsageFile("../usage/syslogd"))),
    Candidate("tac", Applet("tac", "tac", CStyle("crate::coreutils::tac::tac_main"), DirUsrBin, UsageFile("../usage/tac"))),
    Candidate("tail", Applet("tail", "tail", CStyle("crate::coreutils::tail::tail_main"), DirUsrBin, UsageFile("../usage/tail"))),
    Candidate("tar", Applet("tar", "tar", CStyle("crate::archival::tar::tar_main"), DirBin, UsageFile("../usage/tar")))
  ]

  /** Pushes at applets/applet_tables.rs:2650-2689. */
  const Block65: seq<Candidate> := [
    Candidate("taskset", Applet("taskset", "taskset", CStyle("crate::util_linux::taskset::taskset_main"), DirUsrBin, UsageFile("../usage/taskset"))),
    Candidate("tc", Applet("tc", "tc", CStyle("crate::networking::tc::tc_main"), DirSbin, UsageFile("../usage/tc"))),
    Candidate("tcpsvd", Applet("tcpsvd", "tcpudpsvd", CStyle("crate::networking::tcpudp::tcpudpsvd_main"), DirUsrBin, UsageFile("../usage/tcpsvd"))),
    Candidate("tee", Applet("tee", "tee", CStyle("crate::coreutils::tee::tee_main"), DirUsrBin, UsageFile("../usage/tee"))),
    Candidate("telnet", Applet("telnet", "telnet", CStyle("crate::networking::telnet::telnet_main"), DirUsrBin, UsageFile("../usage/telnet")))
  ]

  /** Pushes at applets/applet_tables.rs:2690-2729. */
  const Block66: seq<Candidate> := [
    Candidate("telnetd", Applet("telnetd", "telnetd", CStyle("crate::networking::telnetd::telnetd_main"), DirUsrSbin, UsageFile("../usage/telnetd"))),
    Candidate("test", Applet("test", "test", CStyle("crate::coreutils::test::test_main"), DirUsrBin, UsageFile("../usage/test"))),
    Candidate("tftp", Applet("tftp", "tftp", CStyle("crate::networking::tftp::tftp_main"), DirUsrBin, UsageFile("../usage/tftp"))),
    Candidate("tftpd", Applet("tftpd", "tftpd", CStyle("tcrate::networking::ftpd::ftpd_main"), DirUsrSbin, UsageFile("../usage/tftpd"))),
    Candidate("time", Applet("time", "time", CStyle("crate::miscutils::time::time_main"), DirUsrBin, UsageFile("../usage/time")))
  ]

  /** Pushes at applets/applet_tables.rs:2730-2769. */
  const Block67: seq<Candidate> := [
    Candidate("timeout", Applet("timeout", "timeout", CStyle("crate::coreutils::timeout::timeout_main"), DirUsrBin, UsageFile("../usage/timeout"))),
    Candidate("top", Applet("top", "top", CStyle("crate::procps::top::top_main"), DirUsrBin, UsageFile("../usage/top"))),
    Candidate("touch", Applet("touch", "touch", CStyle("crate::coreutils::touch::touch_main"), DirBin, UsageFile("../usage/touch"))),
    Candidate("tr", Applet("tr", "tr", CStyle("crate::coreutils::tr::tr_main"), DirUsrBin, UsageFile("../usage/tr"))),
    Candidate("traceroute", Applet("traceroute", "traceroute", CStyle("tracecrate::networking::route::route_main"), DirUsrBin, UsageFile("../usage/traceroute")))
  ]

  /** Pushes at applets/applet_tables.rs:2770-2809. */
  const Block68: seq<Candidate> := [
    Candidate("traceroute6", Applet("traceroute6", "traceroute6", CStyle("crate::networking::traceroute::traceroute6_main"), DirUsrBin, UsageFile("../usage/traceroute6"))),
    Candidate("true", Applet("true", "true", SafeStyle("crate::coreutils::r#true::true_main"), DirBin, UsageFile("../usage/true"))),
    Candidate("truncate", Applet("truncate", "truncate", CStyle("crate::coreutils::truncate::truncate_main"), DirUsrBin, UsageFile("../usage/truncate"))),
    Candidate("ts", Applet("ts", "ts", CStyle("crate::miscutils::ts::ts_main"), DirUsrBin, UsageFile("../usage/ts"))),
    Candidate("tty", Applet("tty", "tty", CStyle("crate::coreutils::tty::tty_main"), DirUsrBin, UsageFile("../usage/tty")))
  ]

  /** Pushes at applets/applet_tables.rs:2810-2849. */
  const Block69: seq<Candidate> := [
    Candidate("ttysize", Applet("ttysize", "ttysize", CStyle("crate::miscutils::ttysize::ttysize_main"), DirUsrBin, UsageFile("../usage/ttysize"))),
    Candidate("tunctl", Applet("tunctl", "tunctl", CStyle("crate::networking::tunctl::tunctl_main"), DirSbin, UsageFile("../usage/tunctl"))),
    Candidate("ubiattach", Applet("ubiattach", "ubi_tools", CStyle("ubi_toocrate::coreutils::ls::ls_main"), DirUsrSbin, UsageFile("../usage/ubiattach"))),
    Candidate("ubidetach", Applet("ubidetach", "ubi_tools", CStyle("ubi_toocrate::coreutils::ls::ls_main"), DirUsrSbin, UsageFile("../usage/ubidetach"))),
    Candidate("ubimkvol", Applet("ubimkvol", "ubi_tools", CStyle("ubi_toocrate::coreutils::ls::ls_main"), DirUsrSbin, UsageFile("../usage/ubimkvol")))
  ]

  /** Pushes at applets/applet_tables.rs:2850-2889. */
  const Block70: seq<Candidate> := [
    Candidate("ubirename", Applet("ubirename", "ubirename", CStyle("crate::miscutils::ubirename::ubirename_main"), DirUsrSbin, UsageFile("../usage/ubirename"))),
    Candidate("ubirmvol", Applet("ubirmvol", "ubi_tools", CStyle("ubi_toocrate::coreutils::ls::ls_main"), DirUsrSbin, UsageFile("../usage/ubirmvol"))),
    Candidate("ubirsvol", Applet("ubirsvol", "ubi_tools", CStyle("ubi_toocrate::coreutils::ls::ls_main"), DirUsrSbin, UsageFile("../usage/ubirsvol"))),
    Candidate("ubiupdatevol", Applet("ubiupdatevol", "ubi_tools", CStyle("ubi_toocrate::coreutils::ls::ls_main"), DirUsrSbin, UsageFile("../usage/ubiupdatevol"))),
    Candidate("udhcpc", Applet("udhcpc", "udhcpc", CStyle("crate::networking::udhcp::dhcpc::udhcpc_main"), DirSbin, UsageFile("../usage/udhcpc")))
  ]

  /** Pushes at applets/applet_tables.rs:2890-2929. */
  const Block71: seq<Candidate> := [
    Candidate("udhcpc6", Applet("udhcpc6", "udhcpc6", CStyle("crate::networking::udhcp::d6_dhcpc::udhcpc6_main"), DirUsrBin, UsageFile("../usage/udhcpc6"))),
    Candidate("udhcpd", Applet("udhcpd", "udhcpd", CStyle("crate::networking::udhcp::dhcpd::udhcpd_main"), DirUsrSbin, UsageFile("../usage/udhcpd"))),
    Candidate("udpsvd", Applet("udpsvd", "tcpudpsvd", CStyle("crate::networking::tcpudp::tcpudpsvd_main"), DirUsrBin, UsageFile("../usage/udpsvd"))),
    Candidate("uevent", Applet("uevent", "uevent", CStyle("crate::util_linux::uevent::uevent_main"), DirSbin, UsageFile("../usage/uevent"))),
    Candidate("umount", Applet("umount", "umount", CStyle("ucrate::util_linux::mount::mount_main"), DirBin, UsageFile("../usage/umount")))
  ]

  /** Pushes at applets/applet_tables.rs:2930-2969. */
  const Block72: seq<Candidate> := [
    Candidate("uname", Applet("uname", "uname", CStyle("crate::coreutils::uname::uname_main"), DirBin, UsageFile("../usage/uname"))),
    Candidate("unexpand", Applet("unexpand", "expand", CStyle("crate::coreutils::expand::expand_main"), DirUsrBin, UsageFile("../usage/unexpand"))),
    Candidate("uniq", Applet("uniq", "uniq", CStyle("crate::coreutils::uniq::uniq_main"), DirUsrBin, UsageFile("../usage/uniq"))),
    Candidate("unix2dos", Applet("unix2dos", "dos2unix", CStyle("crate::coreutils::dos2unix::dos2unix_main"), DirUsrBin, UsageFile("../usage/unix2dos"))),
    Candidate("unlink", Applet("unlink", "unlink", CStyle("uncrate::coreutils::link::link_main"), DirUsrBin, UsageFile("../usage/unlink")))
  ]

  /** Pushes at applets/applet_tables.rs:2970-3009. */
  const Block73: seq<Candidate> := [
    Candidate("unlzma", Applet("unlzma", "unlzma", CStyle("crate::archival::bbunzip::unlzma_main"), DirUsrBin, UsageFile("../usage/unlzma"))),
    Candidate("unshare", Applet("unshare", "unshare", CStyle("crate::util_linux::unshare::unshare_main"), DirUsrBin, UsageFile("../usage/unshare"))),
    Candidate("unxz", Applet("unxz", "unxz", CStyle("crate::archival::bbunzip::unxz_main"), DirUsrBin, UsageFile("../usage/unxz"))),
    Candidate("unzip", Applet("unzip", "unzip", CStyle("crate::archival::unzip::unzcrate::networking::ip::ip_main"), DirUsrBin, UsageFile("../usage/unzip"))),
    Candidate("uptime", Applet("uptime", "uptime", CStyle("upcrate::miscutils::time::time_main"), DirUsrBin, UsageFile("../usage/uptime")))
  ]

  /** Pushes at applets/applet_tables.rs:3010-3049. */
  const Block74: seq<Candidate> := [
    Candidate("users", Applet("users", "who", CStyle("crate::coreutils::who::who_main"), DirUsrBin, UsageFile("../usage/users"))),
    Candidate("usleep", Applet("usleep", "usleep", CStyle("ucrate::coreutils::sleep::sleep_main"), DirBin, UsageFile("../usage/usleep"))),
    Candidate("uudecode", Applet("uudecode", "uudecode", CStyle("crate::coreutils::uudecode::uudecode_main"), DirUsrBin, UsageFile("../usage/uudecode"))),
    Candidate("uuencode", Applet("uuencode", "uuencode", CStyle("crate::coreutils::uuencode::uuencode_main"), DirUsrBin, UsageFile("../usage/uuencode"))),
    Candidate("vconfig", Applet("vconfig", "vconfig", CStyle("crate::networking::vconfig::vconfig_main"), DirSbin, UsageFile("../usage/vconfig")))
  ]

  /** Pushes at applets/applet_tables.rs:3050-3089. */
  const Block75: seq<Candidate> := [
    Candidate("vi", Applet("vi", "vi", CStyle("crate::editors::vi::vi_main"), DirBin, UsageFile("../usage/vi"))),
    Candidate("vlock", Applet("vlock", "vlock", CStyle("crate::loginutils::vlock::vlock_main"), DirUsrBin, UsageFile("../usage/vlock"))),
    Candidate("volname", Applet("volname", "volname", CStyle("crate::miscutils::volname::volname_main"), DirUsrBin, UsageFile("../usage/volname"))),
    Candidate("w", Applet("w", "who", CStyle("crate::coreutils::who::who_main"), DirUsrBin, UsageFile("../usage/w"))),
    Candidate("wall", Applet("wall", "wall", CStyle("crate::util_linux::wall::wall_main"), DirUsrBin, UsageFile("../usage/wall")))
  ]

  /** Pushes at applets/applet_tables.rs:3090-3129. */
  const Block76: seq<Candidate> := [
    Candidate("watch", Applet("watch", "watch", CStyle("crate::procps::watch::watch_main"), DirBin, UsageFile("../usage/watch"))),
    Candidate("watchdog", Applet("watchdog", "watchdog", CStyle("crate::miscutils::watchdog::watchdog_main"), DirSbin, UsageFile("../usage/watchdog"))),
    Candidate("wc", Applet("wc", "wc", CStyle("crate::coreutils::wc::wc_main"), DirUsrBin, UsageFile("../usage/wc"))),
    Candidate("wget", Applet("wget", "wget", CStyle("crate::networking::wget::wget_main"), DirUsrBin, UsageFile("../usage/wget"))),
    Candidate("which", Applet("which", "which", CStyle("crate::debianutils::which::which_main"), DirUsrBin, UsageFile("../usage/which")))
  ]

  /** Pushes at applets/applet_tables.rs:3130-3169. */
  const Block77: seq<Candidate> := [
    Candidate("who", Applet("who", "who", CStyle("crate::coreutils::who::who_main"), DirUsrBin, UsageFile("../usage/who"))),
    Candidate("whoami", Applet("whoami", "whoami", CStyle("crate::coreutils::whoami::whoami_main"), DirUsrBin, UsageFile("../usage/whoami"))),
    Candidate("whois", Applet("whois", "whois", CStyle("crate::networking::whois::whois_main"), DirUsrBin, UsageFile("../usage/whois"))),
    Candidate("xargs", Applet("xargs", "xargs", CStyle("crate::findutils::xargs::xargs_main"), DirUsrBin, UsageFile("../usage/xargs"))),
    Candidate("xxd", Applet("xxd", "xxd", CStyle("crate::util_linux::hexdump_xxd::xxd_main"), DirUsrBin, UsageFile("../usage/xxd")))
  ]

  /** Pushes at applets/applet_tables.rs:3170-3209. */
  const Block78: seq<Candidate> := [
    Candidate("xz", Applet("xz", "unxz", CStyle("crate::archival::bbunzip::unxz_main"), DirUsrBin, UsageFile("../usage/xz"))),
    Candidate("xzcat", Applet("xzcat", "unxz", CStyle("crate::archival::bbunzip::unxz_main"), DirUsrBin, UsageFile("../usage/xzcat"))),
    Candidate("yes", Applet("yes", "yes", SafeStyle("crate::coreutils::yes::yes_main"), DirUsrBin, UsageFile("../usage/yes"))),
    Candidate("zcat", Applet("zcat", "gunzip", CStyle("crate::archival::bbunzip::gcrate::archival::unzip::unzcrate::networking::ip::ip_main"), DirBin, UsageFile("../usage/zcat"))),
    Candidate("zcip", Applet("zcip", "zcip", CStyle("zccrate::networking::ip::ip_main"), DirSbin, UsageFile("../usage/zcip")))
  ]

  // Proof scaffolding only: the spans below exist to keep each `Valid` proof
  // small. Span<level>x<index> joins three pieces of the level below (blocks
  // at level 1), and its lemma states the names it starts and ends with.
  const Span1x00: seq<Candidate> := Block00 + Block01 + Block02
  const Span1x01: seq<Candidate> := Block03 + Block04 + Block05
  const Span1x02: seq<Candidate> := Block06 + Block07 + Block08
  const Span1x03: seq<Candidate> := Block09 + Block10 + Block11
  const Span1x04: seq<Candidate> := Block12 + Block13 + Block14
  const Span1x05: seq<Candidate> := Block15 + Block16 + Block17
  const Span1x06: seq<Candidate> := Block18 + Block19 + Block20
  const Span1x07: seq<Candidate> := Block21 + Block22 + Block23
  const Span1x08: seq<Candidate> := Block24 + Block25 + Block26
  const Span1x09: seq<Candidate> := Block27 + Block28 + Block29
  const Span1x10: seq<Candidate> := Block30 + Block31 + Block32
  const Span1x11: seq<Candidate> := Block33 + Block34 + Block35
  const Span1x12: seq<Candidate> := Block36 + Block37 + Block38
  const Span1x13: seq<Candidate> := Block39 + Block40 + Block41
  const Span1x14: seq<Candidate> := Block42 + Block43 + Block44
  const Span1x15: seq<Candidate> := Block45 + Block46 + Block47
  const Span1x16: seq<Candidate> := Block48 + Block49 + Block50
  const Span1x17: seq<Candidate> := Block51 + Block52 + Block53
  const Span1x18: seq<Candidate> := Block54 + Block55 + Block56
  const Span1x19: seq<Candidate> := Block57 + Block58 + Block59
  const Span1x20: seq<Candidate> := Block60 + Block61 + Block62
  const Span1x21: seq<Candidate> := Block63 + Block64 + Block65
  const Span1x22: seq<Candidate> := Block66 + Block67 + Block68
  const Span1x23: seq<Candidate> := Block69 + Block70 + Block71
  const Span1x24: seq<Candidate> := Block72 + Block73 + Block74
  const Span1x25: seq<Candidate> := Block75 + Block76 + Block77
  const Span2x00: seq<Candidate> := Span1x00 + Span1x01 + Span1x02
  const Span2x01: seq<Candidate> := Span1x03 + Span1x04 + Span1x05
  const Span2x02: seq<Candidate> := Span1x06 + Span1x07 + Span1x08
  const Span2x03: seq<Candidate> := Span1x09 + Span1x10 + Span1x11
  const Span2x04: seq<Candidate> := Span1x12 + Span1x13 + Span1x14
  const Span2x05: seq<Candidate> := Span1x15 + Span1x16 + Span1x17
  const Span2x06: seq<Candidate> := Span1x18 + Span1x19 + Span1x20
  const Span2x07: seq<Candidate> := Span1x21 + Span1x22 + Span1x23
  const Span2x08: seq<Candidate> := Span1x24 + Span1x25 + Block78
  const Span3x00: seq<Candidate> := Span2x00 + Span2x01 + Span2x02
  const Span3x01: seq<Candidate> := Span2x03 + Span2x04 + Span2x05
  const Span3x02: seq<Candidate> := Span2x06 + Span2x07 + Span2x08

  /** Every candidate push of the builder, in source order. */
  const Candidates: seq<Candidate> := Span3x00 + Span3x01 + Span3x02

  // Each block is strictly ascending, with the names it starts and
  // ends with; the solver compares its four windows directly.
  lemma Block00Valid()
    ensures Valid(Applets(Block00)) && |Block00| == 5
    ensures Block00[0].applet.name == "[" && Block00[4].applet.name == "addgroup"
  {
  }

  lemma Block01Valid()
    ensures Valid(Applets(Block01)) && |Block01| == 5
    ensures Block01[0].applet.name == "adduser" && Block01[4].applet.name == "arping"
  {
  }

  lemma Block02Valid()
    ensures Valid(Applets(Block02)) && |Block02| == 5
    ensures Block02[0].applet.name == "ash" && Block02[4].applet.name == "bc"
  {
  }

  lemma Block03Valid()
    ensures Valid(Applets(Block03)) && |Block03| == 5
    ensures Block03[0].applet.name == "beep" && Block03[4].applet.name == "bootchartd"
  {
  }

  lemma Block04Valid()
    ensures Valid(Applets(Block04)) && |Block04| == 5
    ensures Block04[0].applet.name == "brctl" && Block04[4].applet.name == "cal"
  {
  }

  lemma Block05Valid()
    ensures Valid(Applets(Block05)) && |Block05| == 5
    ensures Block05[0].applet.name == "cat" && Block05[4].applet.name == "chmod"
  {
  }

  lemma Block06Valid()
    ensures Valid(Applets(Block06)) && |Block06| == 5
    ensures Block06[0].applet.name == "chown" && Block06[4].applet.name == "chrt"
  {
  }

  lemma Block07Valid()
    ensures Valid(Applets(Block07)) && |Block07| == 5
    ensures Block07[0].applet.name == "chvt" && Block07[4].applet.name == "comm"
  {
  }

  lemma Block08Valid()
    ensures Valid(Applets(Block08)) && |Block08| == 5
    ensures Block08[0].applet.name == "conspy" && Block08[4].applet.name == "crontab"
  {
  }

  lemma Block09Valid()
    ensures Valid(Applets(Block09)) && |Block09| == 5
    ensures Block09[0].applet.name == "cryptpw" && Block09[4].applet.name == "dc"
  {
  }

  lemma Block10Valid()
    ensures Valid(Applets(Block10)) && |Block10| == 5
    ensures Block10[0].applet.name == "dd" && Block10[4].applet.name == "depmod"
  {
  }

  lemma Block11Valid()
    ensures Valid(Applets(Block11)) && |Block11| == 5
    ensures Block11[0].applet.name == "devmem" && Block11[4].applet.name == "dirname"
  {
  }

  lemma Block12Valid()
    ensures Valid(Applets(Block12)) && |Block12| == 5
    ensures Block12[0].applet.name == "dmesg" && Block12[4].applet.name == "dpkg"
  {
  }

  lemma Block13Valid()
    ensures Valid(Applets(Block13)) && |Block13| == 5
    ensures Block13[0].applet.name == "dpkg-deb" && Block13[4].applet.name == "echo"
  {
  }

  lemma Block14Valid()
    ensures Valid(Applets(Block14)) && |Block14| == 5
    ensures Block14[0].applet.name == "ed" && Block14[4].applet.name == "envdir"
  {
  }

  lemma Block15Valid()
    ensures Valid(Applets(Block15)) && |Block15| == 5
    ensures Block15[0].applet.name == "envuidgid" && Block15[4].applet.name == "factor"
  {
  }

  lemma Block16Valid()
    ensures Valid(Applets(Block16)) && |Block16| == 5
    ensures Block16[0].applet.name == "fakeidentd" && Block16[4].applet.name == "fbset"
  {
  }

  lemma Block17Valid()
    ensures Valid(Applets(Block17)) && |Block17| == 5
    ensures Block17[0].applet.name == "fbsplash" && Block17[4].applet.name == "fgconsole"
  {
  }

  lemma Block18Valid()
    ensures Valid(Applets(Block18)) && |Block18| == 5
    ensures Block18[0].applet.name == "fgrep" && Block18[4].applet.name == "fold"
  {
  }

  lemma Block19Valid()
    ensures Valid(Applets(Block19)) && |Block19| == 5
    ensures Block19[0].applet.name == "free" && Block19[4].applet.name == "fsfreeze"
  {
  }

  lemma Block20Valid()
    ensures Valid(Applets(Block20)) && |Block20| == 5
    ensures Block20[0].applet.name == "fstrim" && Block20[4].applet.name == "ftpput"
  {
  }

  lemma Block21Valid()
    ensures Valid(Applets(Block21)) && |Block21| == 5
    ensures Block21[0].applet.name == "fuser" && Block21[4].applet.name == "groups"
  {
  }

  lemma Block22Valid()
    ensures Valid(Applets(Block22)) && |Block22| == 5
    ensures Block22[0].applet.name == "gunzip" && Block22[4].applet.name == "hdparm"
  {
  }

  lemma Block23Valid()
    ensures Valid(Applets(Block23)) && |Block23| == 5
    ensures Block23[0].applet.name == "head" && Block23[4].applet.name == "hostname"
  {
  }

  lemma Block24Valid()
    ensures Valid(Applets(Block24)) && |Block24| == 5
    ensures Block24[0].applet.name == "httpd" && Block24[4].applet.name == "i2cdump"
  {
  }

  lemma Block25Valid()
    ensures Valid(Applets(Block25)) && |Block25| == 5
    ensures Block25[0].applet.name == "i2cget" && Block25[4].applet.name == "ifconfig"
  {
  }

  lemma Block26Valid()
    ensures Valid(Applets(Block26)) && |Block26| == 5
    ensures Block26[0].applet.name == "ifdown" && Block26[4].applet.name == "inetd"
  {
  }

  lemma Block27Valid()
    ensures Valid(Applets(Block27)) && |Block27| == 5
    ensures Block27[0].applet.name == "init" && Block27[4].applet.name == "iostat"
  {
  }

  lemma Block28Valid()
    ensures Valid(Applets(Block28)) && |Block28| == 5
    ensures Block28[0].applet.name == "ip" && Block28[4].applet.name == "ipcs"
  {
  }

  lemma Block29Valid()
    ensures Valid(Applets(Block29)) && |Block29| == 5
    ensures Block29[0].applet.name == "iplink" && Block29[4].applet.name == "iptunnel"
  {
  }

  lemma Block30Valid()
    ensures Valid(Applets(Block30)) && |Block30| == 5
    ensures Block30[0].applet.name == "kbd_mode" && Block30[4].applet.name == "klogd"
  {
  }

  lemma Block31Valid()
    ensures Valid(Applets(Block31)) && |Block31| == 5
    ensures Block31[0].applet.name == "last" && Block31[4].applet.name == "linux64"
  {
  }

  lemma Block32Valid()
    ensures Valid(Applets(Block32)) && |Block32| == 5
    ensures Block32[0].applet.name == "linuxrc" && Block32[4].applet.name == "logger"
  {
  }

  lemma Block33Valid()
    ensures Valid(Applets(Block33)) && |Block33| == 5
    ensures Block33[0].applet.name == "login" && Block33[4].applet.name == "lpd"
  {
  }

  lemma Block34Valid()
    ensures Valid(Applets(Block34)) && |Block34| == 5
    ensures Block34[0].applet.name == "lpq" && Block34[4].applet.name == "lsmod"
  {
  }

  lemma Block35Valid()
    ensures Valid(Applets(Block35)) && |Block35| == 5
    ensures Block35[0].applet.name == "lsof" && Block35[4].applet.name == "lzcat"
  {
  }

  lemma Block36Valid()
    ensures Valid(Applets(Block36)) && |Block36| == 5
    ensures Block36[0].applet.name == "lzma" && Block36[4].applet.name == "man"
  {
  }

  lemma Block37Valid()
    ensures Valid(Applets(Block37)) && |Block37| == 5
    ensures Block37[0].applet.name == "md5sum" && Block37[4].applet.name == "mkdir"
  {
  }

  lemma Block38Valid()
    ensures Valid(Applets(Block38)) && |Block38| == 5
    ensures Block38[0].applet.name == "mkdosfs" && Block38[4].applet.name == "mkfs.minix"
  {
  }

  lemma Block39Valid()
    ensures Valid(Applets(Block39)) && |Block39| == 5
    ensures Block39[0].applet.name == "mkfs.vfat" && Block39[4].applet.name == "mktemp"
  {
  }

  lemma Block40Valid()
    ensures Valid(Applets(Block40)) && |Block40| == 5
    ensures Block40[0].applet.name == "modinfo" && Block40[4].applet.name == "mountpoint"
  {
  }

  lemma Block41Valid()
    ensures Valid(Applets(Block41)) && |Block41| == 5
    ensures Block41[0].applet.name == "mpstat" && Block41[4].applet.name == "nanddump"
  {
  }

  lemma Block42Valid()
    ensures Valid(Applets(Block42)) && |Block42| == 5
    ensures Block42[0].applet.name == "nandwrite" && Block42[4].applet.name == "nice"
  {
  }

  lemma Block43Valid()
    ensures Valid(Applets(Block43)) && |Block43| == 5
    ensures Block43[0].applet.name == "nl" && Block43[4].applet.name == "nsenter"
  {
  }

  lemma Block44Valid()
    ensures Valid(Applets(Block44)) && |Block44| == 5
    ensures Block44[0].applet.name == "nslookup" && Block44[4].applet.name == "openvt"
  {
  }

  lemma Block45Valid()
    ensures Valid(Applets(Block45)) && |Block45| == 5
    ensures Block45[0].applet.name == "partprobe" && Block45[4].applet.name == "pgrep"
  {
  }

  lemma Block46Valid()
    ensures Valid(Applets(Block46)) && |Block46| == 5
    ensures Block46[0].applet.name == "pidof" && Block46[4].applet.name == "pivot_root"
  {
  }

  lemma Block47Valid()
    ensures Valid(Applets(Block47)) && |Block47| == 5
    ensures Block47[0].applet.name == "pkill" && Block47[4].applet.name == "powertop"
  {
  }

  lemma Block48Valid()
    ensures Valid(Applets(Block48)) && |Block48| == 5
    ensures Block48[0].applet.name == "printenv" && Block48[4].applet.name == "pstree"
  {
  }

  lemma Block49Valid()
    ensures Valid(Applets(Block49)) && |Block49| == 5
    ensures Block49[0].applet.name == "pwd" && Block49[4].applet.name == "rdev"
  {
  }

  lemma Block50Valid()
    ensures Valid(Applets(Block50)) && |Block50| == 5
    ensures Block50[0].applet.name == "readahead" && Block50[4].applet.name == "reboot"
  {
  }

  lemma Block51Valid()
    ensures Valid(Applets(Block51)) && |Block51| == 5
    ensures Block51[0].applet.name == "reformime" && Block51[4].applet.name == "resize"
  {
  }

  lemma Block52Valid()
    ensures Valid(Applets(Block52)) && |Block52| == 5
    ensures Block52[0].applet.name == "resume" && Block52[4].applet.name == "rmmod"
  {
  }

  lemma Block53Valid()
    ensures Valid(Applets(Block53)) && |Block53| == 5
    ensures Block53[0].applet.name == "route" && Block53[4].applet.name == "run-init"
  {
  }

  lemma Block54Valid()
    ensures Valid(Applets(Block54)) && |Block54| == 5
    ensures Block54[0].applet.name == "run-parts" && Block54[4].applet.name == "rx"
  {
  }

  lemma Block55Valid()
    ensures Valid(Applets(Block55)) && |Block55| == 5
    ensures Block55[0].applet.name == "script" && Block55[4].applet.name == "seq"
  {
  }

  lemma Block56Valid()
    ensures Valid(Applets(Block56)) && |Block56| == 5
    ensures Block56[0].applet.name == "setarch" && Block56[4].applet.name == "setkeycodes"
  {
  }

  lemma Block57Valid()
    ensures Valid(Applets(Block57)) && |Block57| == 5
    ensures Block57[0].applet.name == "setlogcons" && Block57[4].applet.name == "setuidgid"
  {
  }

  lemma Block58Valid()
    ensures Valid(Applets(Block58)) && |Block58| == 5
    ensures Block58[0].applet.name == "sh" && Block58[4].applet.name == "sha512sum"
  {
  }

  lemma Block59Valid()
    ensures Valid(Applets(Block59)) && |Block59| == 5
    ensures Block59[0].applet.name == "showkey" && Block59[4].applet.name == "sleep"
  {
  }

  lemma Block60Valid()
    ensures Valid(Applets(Block60)) && |Block60| == 5
    ensures Block60[0].applet.name == "smemcap" && Block60[4].applet.name == "ssl_client"
  {
  }

  lemma Block61Valid()
    ensures Valid(Applets(Block61)) && |Block61| == 5
    ensures Block61[0].applet.name == "start-stop-daemon" && Block61[4].applet.name == "su"
  {
  }

  lemma Block62Valid()
    ensures Valid(Applets(Block62)) && |Block62| == 5
    ensures Block62[0].applet.name == "sulogin" && Block62[4].applet.name == "svlogd"
  {
  }

  lemma Block63Valid()
    ensures Valid(Applets(Block63)) && |Block63| == 5
    ensures Block63[0].applet.name == "svok" && Block63[4].applet.name == "sync"
  {
  }

  lemma Block64Valid()
    ensures Valid(Applets(Block64)) && |Block64| == 5
    ensures Block64[0].applet.name == "sysctl" && Block64[4].applet.name == "tar"
  {
  }

  lemma Block65Valid()
    ensures Valid(Applets(Block65)) && |Block65| == 5
    ensures Block65[0].applet.name == "taskset" && Block65[4].applet.name == "telnet"
  {
  }

  lemma Block66Valid()
    ensures Valid(Applets(Block66)) && |Block66| == 5
    ensures Block66[0].applet.name == "telnetd" && Block66[4].applet.name == "time"
  {
  }

  lemma Block67Valid()
    ensures Valid(Applets(Block67)) && |Block67| == 5
    ensures Block67[0].applet.name == "timeout" && Block67[4].applet.name == "traceroute"
  {
  }

  lemma Block68Valid()
    ensures Valid(Applets(Block68)) && |Block68| == 5
    ensures Block68[0].applet.name == "traceroute6" && Block68[4].applet.name == "tty"
  {
  }

  lemma Block69Valid()
    ensures Valid(Applets(Block69)) && |Block69| == 5
    ensures Block69[0].applet.name == "ttysize" && Block69[4].applet.name == "ubimkvol"
  {
  }

  lemma Block70Valid()
    ensures Valid(Applets(Block70)) && |Block70| == 5
    ensures Block70[0].applet.name == "ubirename" && Block70[4].applet.name == "udhcpc"
  {
  }

  lemma Block71Valid()
    ensures Valid(Applets(Block71)) && |Block71| == 5
    ensures Block71[0].applet.name == "udhcpc6" && Block71[4].applet.name == "umount"
  {
  }

  lemma Block72Valid()
    ensures Valid(Applets(Block72)) && |Block72| == 5
    ensures Block72[0].applet.name == "uname" && Block72[4].applet.name == "unlink"
  {
  }

  lemma Block73Valid()
    ensures Valid(Applets(Block73)) && |Block73| == 5
    ensures Block73[0].applet.name == "unlzma" && Block73[4].applet.name == "uptime"
  {
  }

  lemma Block74Valid()
    ensures Valid(Applets(Block74)) && |Block74| == 5
    ensures Block74[0].applet.name == "users" && Block74[4].applet.name == "vconfig"
  {
  }

  lemma Block75Valid()
    ensures Valid(Applets(Block75)) && |Block75| == 5
    ensures Block75[0].applet.name == "vi" && Block75[4].applet.name == "wall"
  {
  }

  lemma Block76Valid()
    ensures Valid(Applets(Block76)) && |Block76| == 5
    ensures Block76[0].applet.name == "watch" && Block76[4].applet.name == "which"
  {
  }

  lemma Block77Valid()
    ensures Valid(Applets(Block77)) && |Block77| == 5
    ensures Block77[0].applet.name == "who" && Block77[4].applet.name == "xxd"
  {
  }

  lemma Block78Valid()
    ensures Valid(Applets(Block78)) && |Block78| == 5
    ensures Block78[0].applet.name == "xz" && Block78[4].applet.name == "zcip"
  {
  }

  /** Span1x00 passes the check and runs from `[` to `bc`. */
  lemma Span1x00Valid()
    ensures Valid(Applets(Span1x00)) && |Span1x00| == 15
    ensures |Span1x00| > 0 && Span1x00[0].applet.name == "[" && Span1x00[|Span1x00| - 1].applet.name == "bc"
  {
    Block00Valid();
    var acc := Block00;
    Block01Valid();
    assert Less("addgroup", "adduser");
    AppletsConcat(acc, Block01);
    ValidConcat(Applets(acc), Applets(Block01));
    assert (acc + Block01)[0] == acc[0];
    assert (acc + Block01)[|acc + Block01| - 1] == Block01[|Block01| - 1];
    acc := acc + Block01;
    Block02Valid();
    assert Less("arping", "ash");
    AppletsConcat(acc, Block02);
    ValidConcat(Applets(acc), Applets(Block02));
    assert (acc + Block02)[0] == acc[0];
    assert (acc + Block02)[|acc + Block02| - 1] == Block02[|Block02| - 1];
    acc := acc + Block02;
    assert acc == Span1x00;
  }

  /** Span1x01 passes the check and runs from `beep` to `chmod`. */
  lemma Span1x01Valid()
    ensures Valid(Applets(Span1x01)) && |Span1x01| == 15
    ensures |Span1x01| > 0 && Span1x01[0].applet.name == "beep" && Span1x01[|Span1x01| - 1].applet.name == "chmod"
  {
    Block03Valid();
    var acc := Block03;
    Block04Valid();
    assert Less("bootchartd", "brctl");
    AppletsConcat(acc, Block04);
    ValidConcat(Applets(acc), Applets(Block04));
    assert (acc + Block04)[0] == acc[0];
    assert (acc + Block04)[|acc + Block04| - 1] == Block04[|Block04| - 1];
    acc := acc + Block04;
    Block05Valid();
    assert Less("cal", "cat");
    AppletsConcat(acc, Block05);
    ValidConcat(Applets(acc), Applets(Block05));
    assert (acc + Block05)[0] == acc[0];
    assert (acc + Block05)[|acc + Block05| - 1] == Block05[|Block05| - 1];
    acc := acc + Block05;
    assert acc == Span1x01;
  }

  /** Span1x02 passes the check and runs from `chown` to `crontab`. */
  lemma Span1x02Valid()
    ensures Valid(Applets(Span1x02)) && |Span1x02| == 15
    ensures |Span1x02| > 0 && Span1x02[0].applet.name == "chown" && Span1x02[|Span1x02| - 1].applet.name == "crontab"
  {
    Block06Valid();
    var acc := Block06;
    Block07Valid();
    assert Less("chrt", "chvt");
    AppletsConcat(acc, Block07);
    ValidConcat(Applets(acc), Applets(Block07));
    assert (acc + Block07)[0] == acc[0];
    assert (acc + Block07)[|acc + Block07| - 1] == Block07[|Block07| - 1];
    acc := acc + Block07;
    Block08Valid();
    assert Less("comm", "conspy");
    AppletsConcat(acc, Block08);
    ValidConcat(Applets(acc), Applets(Block08));
    assert (acc + Block08)[0] == acc[0];
    assert (acc + Block08)[|acc + Block08| - 1] == Block08[|Block08| - 1];
    acc := acc + Block08;
    assert acc == Span1x02;
  }

  /** Span1x03 passes the check and runs from `cryptpw` to `dirname`. */
  lemma Span1x03Valid()
    ensures Valid(Applets(Span1x03)) && |Span1x03| == 15
    ensures |Span1x03| > 0 && Span1x03[0].applet.name == "cryptpw" && Span1x03[|Span1x03| - 1].applet.name == "dirname"
  {
    Block09Valid();
    var acc := Block09;
    Block10Valid();
    assert Less("dc", "dd");
    AppletsConcat(acc, Block10);
    ValidConcat(Applets(acc), Applets(Block10));
    assert (acc + Block10)[0] == acc[0];
    assert (acc + Block10)[|acc + Block10| - 1] == Block10[|Block10| - 1];
    acc := acc + Block10;
    Block11Valid();
    assert Less("depmod", "devmem");
    AppletsConcat(acc, Block11);
    ValidConcat(Applets(acc), Applets(Block11));
    assert (acc + Block11)[0] == acc[0];
    assert (acc + Block11)[|acc + Block11| - 1] == Block11[|Block11| - 1];
    acc := acc + Block11;
    assert acc == Span1x03;
  }

  /** Span1x04 passes the check and runs from `dmesg` to `envdir`. */
  lemma Span1x04Valid()
    ensures Valid(Applets(Span1x04)) && |Span1x04| == 15
    ensures |Span1x04| > 0 && Span1x04[0].applet.name == "dmesg" && Span1x04[|Span1x04| - 1].applet.name == "envdir"
  {
    Block12Valid();
    var acc := Block12;
    Block13Valid();
    assert Less("dpkg", "dpkg-deb");
    AppletsConcat(acc, Block13);
    ValidConcat(Applets(acc), Applets(Block13));
    assert (acc + Block13)[0] == acc[0];
    assert (acc + Block13)[|acc + Block13| - 1] == Block13[|Block13| - 1];
    acc := acc + Block13;
    Block14Valid();
    assert Less("echo", "ed");
    AppletsConcat(acc, Block14);
    ValidConcat(Applets(acc), Applets(Block14));
    assert (acc + Block14)[0] == acc[0];
    assert (acc + Block14)[|acc + Block14| - 1] == Block14[|Block14| - 1];
    acc := acc + Block14;
    assert acc == Span1x04;
  }

  /** Span1x05 passes the check and runs from `envuidgid` to `fgconsole`. */
  lemma Span1x05Valid()
    ensures Valid(Applets(Span1x05)) && |Span1x05| == 15
    ensures |Span1x05| > 0 && Span1x05[0].applet.name == "envuidgid" && Span1x05[|Span1x05| - 1].applet.name == "fgconsole"
  {
    Block15Valid();
    var acc := Block15;
    Block16Valid();
    assert Less("factor", "fakeidentd");
    AppletsConcat(acc, Block16);
    ValidConcat(Applets(acc), Applets(Block16));
    assert (acc + Block16)[0] == acc[0];
    assert (acc + Block16)[|acc + Block16| - 1] == Block16[|Block16| - 1];
    acc := acc + Block16;
    Block17Valid();
    assert Less("fbset", "fbsplash");
    AppletsConcat(acc, Block17);
    ValidConcat(Applets(acc), Applets(Block17));
    assert (acc + Block17)[0] == acc[0];
    assert (acc + Block17)[|acc + Block17| - 1] == Block17[|Block17| - 1];
    acc := acc + Block17;
    assert acc == Span1x05;
  }

  /** Span1x06 passes the check and runs from `fgrep` to `ftpput`. */
  lemma Span1x06Valid()
    ensures Valid(Applets(Span1x06)) && |Span1x06| == 15
    ensures |Span1x06| > 0 && Span1x06[0].applet.name == "fgrep" && Span1x06[|Span1x06| - 1].applet.name == "ftpput"
  {
    Block18Valid();
    var acc := Block18;
    Block19Valid();
    assert Less("fold", "free");
    AppletsConcat(acc, Block19);
    ValidConcat(Applets(acc), Applets(Block19));
    assert (acc + Block19)[0] == acc[0];
    assert (acc + Block19)[|acc + Block19| - 1] == Block19[|Block19| - 1];
    acc := acc + Block19;
    Block20Valid();
    assert Less("fsfreeze", "fstrim");
    AppletsConcat(acc, Block20);
    ValidConcat(Applets(acc), Applets(Block20));
    assert (acc + Block20)[0] == acc[0];
    assert (acc + Block20)[|acc + Block20| - 1] == Block20[|Block20| - 1];
    acc := acc + Block20;
    assert acc == Span1x06;
  }

  /** Span1x07 passes the check and runs from `fuser` to `hostname`. */
  lemma Span1x07Valid()
    ensures Valid(Applets(Span1x07)) && |Span1x07| == 15
    ensures |Span1x07| > 0 && Span1x07[0].applet.name == "fuser" && Span1x07[|Span1x07| - 1].applet.name == "hostname"
  {
    Block21Valid();
    var acc := Block21;
    Block22Valid();
    assert Less("groups", "gunzip");
    AppletsConcat(acc, Block22);
    ValidConcat(Applets(acc), Applets(Block22));
    assert (acc + Block22)[0] == acc[0];
    assert (acc + Block22)[|acc + Block22| - 1] == Block22[|Block22| - 1];
    acc := acc + Block22;
    Block23Valid();
    assert Less("hdparm", "head");
    AppletsConcat(acc, Block23);
    ValidConcat(Applets(acc), Applets(Block23));
    assert (acc + Block23)[0] == acc[0];
    assert (acc + Block23)[|acc + Block23| - 1] == Block23[|Block23| - 1];
    acc := acc + Block23;
    assert acc == Span1x07;
  }

  /** Span1x08 passes the check and runs from `httpd` to `inetd`. */
  lemma Span1x08Valid()
    ensures Valid(Applets(Span1x08)) && |Span1x08| == 15
    ensures |Span1x08| > 0 && Span1x08[0].applet.name == "httpd" && Span1x08[|Span1x08| - 1].applet.name == "inetd"
  {
    Block24Valid();
    var acc := Block24;
    Block25Valid();
    assert Less("i2cdump", "i2cget");
    AppletsConcat(acc, Block25);
    ValidConcat(Applets(acc), Applets(Block25));
    assert (acc + Block25)[0] == acc[0];
    assert (acc + Block25)[|acc + Block25| - 1] == Block25[|Block25| - 1];
    acc := acc + Block25;
    Block26Valid();
    assert Less("ifconfig", "ifdown");
    AppletsConcat(acc, Block26);
    ValidConcat(Applets(acc), Applets(Block26));
    assert (acc + Block26)[0] == acc[0];
    assert (acc + Block26)[|acc + Block26| - 1] == Block26[|Block26| - 1];
    acc := acc + Block26;
    assert acc == Span1x08;
  }

  /** Span1x09 passes the check and runs from `init` to `iptunnel`. */
  lemma Span1x09Valid()
    ensures Valid(Applets(Span1x09)) && |Span1x09| == 15
    ensures |Span1x09| > 0 && Span1x09[0].applet.name == "init" && Span1x09[|Span1x09| - 1].applet.name == "iptunnel"
  {
    Block27Valid();
    var acc := Block27;
    Block28Valid();
    assert Less("iostat", "ip");
    AppletsConcat(acc, Block28);
    ValidConcat(Applets(acc), Applets(Block28));
    assert (acc + Block28)[0] == acc[0];
    assert (acc + Block28)[|acc + Block28| - 1] == Block28[|Block28| - 1];
    acc := acc + Block28;
    Block29Valid();
    assert Less("ipcs", "iplink");
    AppletsConcat(acc, Block29);
    ValidConcat(Applets(acc), Applets(Block29));
    assert (acc + Block29)[0] == acc[0];
    assert (acc + Block29)[|acc + Block29| - 1] == Block29[|Block29| - 1];
    acc := acc + Block29;
    assert acc == Span1x09;
  }

  /** Span1x10 passes the check and runs from `kbd_mode` to `logger`. */
  lemma Span1x10Valid()
    ensures Valid(Applets(Span1x10)) && |Span1x10| == 15
    ensures |Span1x10| > 0 && Span1x10[0].applet.name == "kbd_mode" && Span1x10[|Span1x10| - 1].applet.name == "logger"
  {
    Block30Valid();
    var acc := Block30;
    Block31Valid();
    assert Less("klogd", "last");
    AppletsConcat(acc, Block31);
    ValidConcat(Applets(acc), Applets(Block31));
    assert (acc + Block31)[0] == acc[0];
    assert (acc + Block31)[|acc + Block31| - 1] == Block31[|Block31| - 1];
    acc := acc + Block31;
    Block32Valid();
    assert Less("linux64", "linuxrc");
    AppletsConcat(acc, Block32);
    ValidConcat(Applets(acc), Applets(Block32));
    assert (acc + Block32)[0] == acc[0];
    assert (acc + Block32)[|acc + Block32| - 1] == Block32[|Block32| - 1];
    acc := acc + Block32;
    assert acc == Span1x10;
  }

  /** Span1x11 passes the check and runs from `login` to `lzcat`. */
  lemma Span1x11Valid()
    ensures Valid(Applets(Span1x11)) && |Span1x11| == 15
    ensures |Span1x11| > 0 && Span1x11[0].applet.name == "login" && Span1x11[|Span1x11| - 1].applet.name == "lzcat"
  {
    Block33Valid();
    var acc := Block33;
    Block34Valid();
    assert Less("lpd", "lpq");
    AppletsConcat(acc, Block34);
    ValidConcat(Applets(acc), Applets(Block34));
    assert (acc + Block34)[0] == acc[0];
    assert (acc + Block34)[|acc + Block34| - 1] == Block34[|Block34| - 1];
    acc := acc + Block34;
    Block35Valid();
    assert Less("lsmod", "lsof");
    AppletsConcat(acc, Block35);
    ValidConcat(Applets(acc), Applets(Block35));
    assert (acc + Block35)[0] == acc[0];
    assert (acc + Block35)[|acc + Block35| - 1] == Block35[|Block35| - 1];
    acc := acc + Block35;
    assert acc == Span1x11;
  }

  /** Span1x12 passes the check and runs from `lzma` to `mkfs.minix`. */
  lemma Span1x12Valid()
    ensures Valid(Applets(Span1x12)) && |Span1x12| == 15
    ensures |Span1x12| > 0 && Span1x12[0].applet.name == "lzma" && Span1x12[|Span1x12| - 1].applet.name == "mkfs.minix"
  {
    Block36Valid();
    var acc := Block36;
    Block37Valid();
    assert Less("man", "md5sum");
    AppletsConcat(acc, Block37);
    ValidConcat(Applets(acc), Applets(Block37));
    assert (acc + Block37)[0] == acc[0];
    assert (acc + Block37)[|acc + Block37| - 1] == Block37[|Block37| - 1];
    acc := acc + Block37;
    Block38Valid();
    assert Less("mkdir", "mkdosfs");
    AppletsConcat(acc, Block38);
    ValidConcat(Applets(acc), Applets(Block38));
    assert (acc + Block38)[0] == acc[0];
    assert (acc + Block38)[|acc + Block38| - 1] == Block38[|Block38| - 1];
    acc := acc + Block38;
    assert acc == Span1x12;
  }

  /** Span1x13 passes the check and runs from `mkfs.vfat` to `nanddump`. */
  lemma Span1x13Valid()
    ensures Valid(Applets(Span1x13)) && |Span1x13| == 15
    ensures |Span1x13| > 0 && Span1x13[0].applet.name == "mkfs.vfat" && Span1x13[|Span1x13| - 1].applet.name == "nanddump"
  {
    Block39Valid();
    var acc := Block39;
    Block40Valid();
    assert Less("mktemp", "modinfo");
    AppletsConcat(acc, Block40);
    ValidConcat(Applets(acc), Applets(Block40));
    assert (acc + Block40)[0] == acc[0];
    assert (acc + Block40)[|acc + Block40| - 1] == Block40[|Block40| - 1];
    acc := acc + Block40;
    Block41Valid();
    assert Less("mountpoint", "mpstat");
    AppletsConcat(acc, Block41);
    ValidConcat(Applets(acc), Applets(Block41));
    assert (acc + Block41)[0] == acc[0];
    assert (acc + Block41)[|acc + Block41| - 1] == Block41[|Block41| - 1];
    acc := acc + Block41;
    assert acc == Span1x13;
  }

  /** Span1x14 passes the check and runs from `nandwrite` to `openvt`. */
  lemma Span1x14Valid()
    ensures Valid(Applets(Span1x14)) && |Span1x14| == 15
    ensures |Span1x14| > 0 && Span1x14[0].applet.name == "nandwrite" && Span1x14[|Span1x14| - 1].applet.name == "openvt"
  {
    Block42Valid();
    var acc := Block42;
    Block43Valid();
    assert Less("nice", "nl");
    AppletsConcat(acc, Block43);
    ValidConcat(Applets(acc), Applets(Block43));
    assert (acc + Block43)[0] == acc[0];
    assert (acc + Block43)[|acc + Block43| - 1] == Block43[|Block43| - 1];
    acc := acc + Block43;
    Block44Valid();
    assert Less("nsenter", "nslookup");
    AppletsConcat(acc, Block44);
    ValidConcat(Applets(acc), Applets(Block44));
    assert (acc + Block44)[0] == acc[0];
    assert (acc + Block44)[|acc + Block44| - 1] == Block44[|Block44| - 1];
    acc := acc + Block44;
    assert acc == Span1x14;
  }

  /** Span1x15 passes the check and runs from `partprobe` to `powertop`. */
  lemma Span1x15Valid()
    ensures Valid(Applets(Span1x15)) && |Span1x15| == 15
    ensures |Span1x15| > 0 && Span1x15[0].applet.name == "partprobe" && Span1x15[|Span1x15| - 1].applet.name == "powertop"
  {
    Block45Valid();
    var acc := Block45;
    Block46Valid();
    assert Less("pgrep", "pidof");
    AppletsConcat(acc, Block46);
    ValidConcat(Applets(acc), Applets(Block46));
    assert (acc + Block46)[0] == acc[0];
    assert (acc + Block46)[|acc + Block46| - 1] == Block46[|Block46| - 1];
    acc := acc + Block46;
    Block47Valid();
    assert Less("pivot_root", "pkill");
    AppletsConcat(acc, Block47);
    ValidConcat(Applets(acc), Applets(Block47));
    assert (acc + Block47)[0] == acc[0];
    assert (acc + Block47)[|acc + Block47| - 1] == Block47[|Block47| - 1];
    acc := acc + Block47;
    assert acc == Span1x15;
  }

  /** Span1x16 passes the check and runs from `printenv` to `reboot`. */
  lemma Span1x16Valid()
    ensures Valid(Applets(Span1x16)) && |Span1x16| == 15
    ensures |Span1x16| > 0 && Span1x16[0].applet.name == "printenv" && Span1x16[|Span1x16| - 1].applet.name == "reboot"
  {
    Block48Valid();
    var acc := Block48;
    Block49Valid();
    assert Less("pstree", "pwd");
    AppletsConcat(acc, Block49);
    ValidConcat(Applets(acc), Applets(Block49));
    assert (acc + Block49)[0] == acc[0];
    assert (acc + Block49)[|acc + Block49| - 1] == Block49[|Block49| - 1];
    acc := acc + Block49;
    Block50Valid();
    assert Less("rdev", "readahead");
    AppletsConcat(acc, Block50);
    ValidConcat(Applets(acc), Applets(Block50));
    assert (acc + Block50)[0] == acc[0];
    assert (acc + Block50)[|acc + Block50| - 1] == Block50[|Block50| - 1];
    acc := acc + Block50;
    assert acc == Span1x16;
  }

  /** Span1x17 passes the check and runs from `reformime` to `run-init`. */
  lemma Span1x17Valid()
    ensures Valid(Applets(Span1x17)) && |Span1x17| == 15
    ensures |Span1x17| > 0 && Span1x17[0].applet.name == "reformime" && Span1x17[|Span1x17| - 1].applet.name == "run-init"
  {
    Block51Valid();
    var acc := Block51;
    Block52Valid();
    assert Less("resize", "resume");
    AppletsConcat(acc, Block52);
    ValidConcat(Applets(acc), Applets(Block52));
    assert (acc + Block52)[0] == acc[0];
    assert (acc + Block52)[|acc + Block52| - 1] == Block52[|Block52| - 1];
    acc := acc + Block52;
    Block53Valid();
    assert Less("rmmod", "route");
    AppletsConcat(acc, Block53);
    ValidConcat(Applets(acc), Applets(Block53));
    assert (acc + Block53)[0] == acc[0];
    assert (acc + Block53)[|acc + Block53| - 1] == Block53[|Block53| - 1];
    acc := acc + Block53;
    assert acc == Span1x17;
  }

  /** Span1x18 passes the check and runs from `run-parts` to `setkeycodes`. */
  lemma Span1x18Valid()
    ensures Valid(Applets(Span1x18)) && |Span1x18| == 15
    ensures |Span1x18| > 0 && Span1x18[0].applet.name == "run-parts" && Span1x18[|Span1x18| - 1].applet.name == "setkeycodes"
  {
    Block54Valid();
    var acc := Block54;
    Block55Valid();
    assert Less("rx", "script");
    AppletsConcat(acc, Block55);
    ValidConcat(Applets(acc), Applets(Block55));
    assert (acc + Block55)[0] == acc[0];
    assert (acc + Block55)[|acc + Block55| - 1] == Block55[|Block55| - 1];
    acc := acc + Block55;
    Block56Valid();
    assert Less("seq", "setarch");
    AppletsConcat(acc, Block56);
    ValidConcat(Applets(acc), Applets(Block56));
    assert (acc + Block56)[0] == acc[0];
    assert (acc + Block56)[|acc + Block56| - 1] == Block56[|Block56| - 1];
    acc := acc + Block56;
    assert acc == Span1x18;
  }

  /** Span1x19 passes the check and runs from `setlogcons` to `sleep`. */
  lemma Span1x19Valid()
    ensures Valid(Applets(Span1x19)) && |Span1x19| == 15
    ensures |Span1x19| > 0 && Span1x19[0].applet.name == "setlogcons" && Span1x19[|Span1x19| - 1].applet.name == "sleep"
  {
    Block57Valid();
    var acc := Block57;
    Block58Valid();
    assert Less("setuidgid", "sh");
    AppletsConcat(acc, Block58);
    ValidConcat(Applets(acc), Applets(Block58));
    assert (acc + Block58)[0] == acc[0];
    assert (acc + Block58)[|acc + Block58| - 1] == Block58[|Block58| - 1];
    acc := acc + Block58;
    Block59Valid();
    assert Less("sha512sum", "showkey");
    AppletsConcat(acc, Block59);
    ValidConcat(Applets(acc), Applets(Block59));
    assert (acc + Block59)[0] == acc[0];
    assert (acc + Block59)[|acc + Block59| - 1] == Block59[|Block59| - 1];
    acc := acc + Block59;
    assert acc == Span1x19;
  }

  /** Span1x20 passes the check and runs from `smemcap` to `svlogd`. */
  lemma Span1x20Valid()
    ensures Valid(Applets(Span1x20)) && |Span1x20| == 15
    ensures |Span1x20| > 0 && Span1x20[0].applet.name == "smemcap" && Span1x20[|Span1x20| - 1].applet.name == "svlogd"
  {
    Block60Valid();
    var acc := Block60;
    Block61Valid();
    assert Less("ssl_client", "start-stop-daemon");
    AppletsConcat(acc, Block61);
    ValidConcat(Applets(acc), Applets(Block61));
    assert (acc + Block61)[0] == acc[0];
    assert (acc + Block61)[|acc + Block61| - 1] == Block61[|Block61| - 1];
    acc := acc + Block61;
    Block62Valid();
    assert Less("su", "sulogin");
    AppletsConcat(acc, Block62);
    ValidConcat(Applets(acc), Applets(Block62));
    assert (acc + Block62)[0] == acc[0];
    assert (acc + Block62)[|acc + Block62| - 1] == Block62[|Block62| - 1];
    acc := acc + Block62;
    assert acc == Span1x20;
  }

  /** Span1x21 passes the check and runs from `svok` to `telnet`. */
  lemma Span1x21Valid()
    ensures Valid(Applets(Span1x21)) && |Span1x21| == 15
    ensures |Span1x21| > 0 && Span1x21[0].applet.name == "svok" && Span1x21[|Span1x21| - 1].applet.name == "telnet"
  {
    Block63Valid();
    var acc := Block63;
    Block64Valid();
    assert Less("sync", "sysctl");
    AppletsConcat(acc, Block64);
    ValidConcat(Applets(acc), Applets(Block64));
    assert (acc + Block64)[0] == acc[0];
    assert (acc + Block64)[|acc + Block64| - 1] == Block64[|Block64| - 1];
    acc := acc + Block64;
    Block65Valid();
    assert Less("tar", "taskset");
    AppletsConcat(acc, Block65);
    ValidConcat(Applets(acc), Applets(Block65));
    assert (acc + Block65)[0] == acc[0];
    assert (acc + Block65)[|acc + Block65| - 1] == Block65[|Block65| - 1];
    acc := acc + Block65;
    assert acc == Span1x21;
  }

  /** Span1x22 passes the check and runs from `telnetd` to `tty`. */
  lemma Span1x22Valid()
    ensures Valid(Applets(Span1x22)) && |Span1x22| == 15
    ensures |Span1x22| > 0 && Span1x22[0].applet.name == "telnetd" && Span1x22[|Span1x22| - 1].applet.name == "tty"
  {
    Block66Valid();
    var acc := Block66;
    Block67Valid();
    assert Less("time", "timeout");
    AppletsConcat(acc, Block67);
    ValidConcat(Applets(acc), Applets(Block67));
    assert (acc + Block67)[0] == acc[0];
    assert (acc + Block67)[|acc + Block67| - 1] == Block67[|Block67| - 1];
    acc := acc + Block67;
    Block68Valid();
    assert Less("traceroute", "traceroute6");
    AppletsConcat(acc, Block68);
    ValidConcat(Applets(acc), Applets(Block68));
    assert (acc + Block68)[0] == acc[0];
    assert (acc + Block68)[|acc + Block68| - 1] == Block68[|Block68| - 1];
    acc := acc + Block68;
    assert acc == Span1x22;
  }

  /** Span1x23 passes the check and runs from `ttysize` to `umount`. */
  lemma Span1x23Valid()
    ensures Valid(Applets(Span1x23)) && |Span1x23| == 15
    ensures |Span1x23| > 0 && Span1x23[0].applet.name == "ttysize" && Span1x23[|Span1x23| - 1].applet.name == "umount"
  {
    Block69Valid();
    var acc := Block69;
    Block70Valid();
    assert Less("ubimkvol", "ubirename");
    AppletsConcat(acc, Block70);
    ValidConcat(Applets(acc), Applets(Block70));
    assert (acc + Block70)[0] == acc[0];
    assert (acc + Block70)[|acc + Block70| - 1] == Block70[|Block70| - 1];
    acc := acc + Block70;
    Block71Valid();
    assert Less("udhcpc", "udhcpc6");
    AppletsConcat(acc, Block71);
    ValidConcat(Applets(acc), Applets(Block71));
    assert (acc + Block71)[0] == acc[0];
    assert (acc + Block71)[|acc + Block71| - 1] == Block71[|Block71| - 1];
    acc := acc + Block71;
    assert acc == Span1x23;
  }

  /** Span1x24 passes the check and runs from `uname` to `vconfig`. */
  lemma Span1x24Valid()
    ensures Valid(Applets(Span1x24)) && |Span1x24| == 15
    ensures |Span1x24| > 0 && Span1x24[0].applet.name == "uname" && Span1x24[|Span1x24| - 1].applet.name == "vconfig"
  {
    Block72Valid();
    var acc := Block72;
    Block73Valid();
    assert Less("unlink", "unlzma");
    AppletsConcat(acc, Block73);
    ValidConcat(Applets(acc), Applets(Block73));
    assert (acc + Block73)[0] == acc[0];
    assert (acc + Block73)[|acc + Block73| - 1] == Block73[|Block73| - 1];
    acc := acc + Block73;
    Block74Valid();
    assert Less("uptime", "users");
    AppletsConcat(acc, Block74);
    ValidConcat(Applets(acc), Applets(Block74));
    assert (acc + Block74)[0] == acc[0];
    assert (acc + Block74)[|acc + Block74| - 1] == Block74[|Block74| - 1];
    acc := acc + Block74;
    assert acc == Span1x24;
  }

  /** Span1x25 passes the check and runs from `vi` to `xxd`. */
  lemma Span1x25Valid()
    ensures Valid(Applets(Span1x25)) && |Span1x25| == 15
    ensures |Span1x25| > 0 && Span1x25[0].applet.name == "vi" && Span1x25[|Span1x25| - 1].applet.name == "xxd"
  {
    Block75Valid();
    var acc := Block75;
    Block76Valid();
    assert Less("wall", "watch");
    AppletsConcat(acc, Block76);
    ValidConcat(Applets(acc), Applets(Block76));
    assert (acc + Block76)[0] == acc[0];
    assert (acc + Block76)[|acc + Block76| - 1] == Block76[|Block76| - 1];
    acc := acc + Block76;
    Block77Valid();
    assert Less("which", "who");
    AppletsConcat(acc, Block77);
    ValidConcat(Applets(acc), Applets(Block77));
    assert (acc + Block77)[0] == acc[0];
    assert (acc + Block77)[|acc + Block77| - 1] == Block77[|Block77| - 1];
    acc := acc + Block77;
    assert acc == Span1x25;
  }

  /** Span2x00 passes the check and runs from `[` to `crontab`. */
  lemma Span2x00Valid()
    ensures Valid(Applets(Span2x00)) && |Span2x00| == 45
    ensures |Span2x00| > 0 && Span2x00[0].applet.name == "[" && Span2x00[|Span2x00| - 1].applet.name == "crontab"
  {
    Span1x00Valid();
    var acc := Span1x00;
    Span1x01Valid();
    assert Less("bc", "beep");
    AppletsConcat(acc, Span1x01);
    ValidConcat(Applets(acc), Applets(Span1x01));
    assert (acc + Span1x01)[0] == acc[0];
    assert (acc + Span1x01)[|acc + Span1x01| - 1] == Span1x01[|Span1x01| - 1];
    acc := acc + Span1x01;
    Span1x02Valid();
    assert Less("chmod", "chown");
    AppletsConcat(acc, Span1x02);
    ValidConcat(Applets(acc), Applets(Span1x02));
    assert (acc + Span1x02)[0] == acc[0];
    assert (acc + Span1x02)[|acc + Span1x02| - 1] == Span1x02[|Span1x02| - 1];
    acc := acc + Span1x02;
    assert acc == Span2x00;
  }

  /** Span2x01 passes the check and runs from `cryptpw` to `fgconsole`. */
  lemma Span2x01Valid()
    ensures Valid(Applets(Span2x01)) && |Span2x01| == 45
    ensures |Span2x01| > 0 && Span2x01[0].applet.name == "cryptpw" && Span2x01[|Span2x01| - 1].applet.name == "fgconsole"
  {
    Span1x03Valid();
    var acc := Span1x03;
    Span1x04Valid();
    assert Less("dirname", "dmesg");
    AppletsConcat(acc, Span1x04);
    ValidConcat(Applets(acc), Applets(Span1x04));
    assert (acc + Span1x04)[0] == acc[0];
    assert (acc + Span1x04)[|acc + Span1x04| - 1] == Span1x04[|Span1x04| - 1];
    acc := acc + Span1x04;
    Span1x05Valid();
    assert Less("envdir", "envuidgid");
    AppletsConcat(acc, Span1x05);
    ValidConcat(Applets(acc), Applets(Span1x05));
    assert (acc + Span1x05)[0] == acc[0];
    assert (acc + Span1x05)[|acc + Span1x05| - 1] == Span1x05[|Span1x05| - 1];
    acc := acc + Span1x05;
    assert acc == Span2x01;
  }

  /** Span2x02 passes the check and runs from `fgrep` to `inetd`. */
  lemma Span2x02Valid()
    ensures Valid(Applets(Span2x02)) && |Span2x02| == 45
    ensures |Span2x02| > 0 && Span2x02[0].applet.name == "fgrep" && Span2x02[|Span2x02| - 1].applet.name == "inetd"
  {
    Span1x06Valid();
    var acc := Span1x06;
    Span1x07Valid();
    assert Less("ftpput", "fuser");
    AppletsConcat(acc, Span1x07);
    ValidConcat(Applets(acc), Applets(Span1x07));
    assert (acc + Span1x07)[0] == acc[0];
    assert (acc + Span1x07)[|acc + Span1x07| - 1] == Span1x07[|Span1x07| - 1];
    acc := acc + Span1x07;
    Span1x08Valid();
    assert Less("hostname", "httpd");
    AppletsConcat(acc, Span1x08);
    ValidConcat(Applets(acc), Applets(Span1x08));
    assert (acc + Span1x08)[0] == acc[0];
    assert (acc + Span1x08)[|acc + Span1x08| - 1] == Span1x08[|Span1x08| - 1];
    acc := acc + Span1x08;
    assert acc == Span2x02;
  }

  /** Span2x03 passes the check and runs from `init` to `lzcat`. */
  lemma Span2x03Valid()
    ensures Valid(Applets(Span2x03)) && |Span2x03| == 45
    ensures |Span2x03| > 0 && Span2x03[0].applet.name == "init" && Span2x03[|Span2x03| - 1].applet.name == "lzcat"
  {
    Span1x09Valid();
    var acc := Span1x09;
    Span1x10Valid();
    assert Less("iptunnel", "kbd_mode");
    AppletsConcat(acc, Span1x10);
    ValidConcat(Applets(acc), Applets(Span1x10));
    assert (acc + Span1x10)[0] == acc[0];
    assert (acc + Span1x10)[|acc + Span1x10| - 1] == Span1x10[|Span1x10| - 1];
    acc := acc + Span1x10;
    Span1x11Valid();
    assert Less("logger", "login");
    AppletsConcat(acc, Span1x11);
    ValidConcat(Applets(acc), Applets(Span1x11));
    assert (acc + Span1x11)[0] == acc[0];
    assert (acc + Span1x11)[|acc + Span1x11| - 1] == Span1x11[|Span1x11| - 1];
    acc := acc + Span1x11;
    assert acc == Span2x03;
  }

  /** Span2x04 passes the check and runs from `lzma` to `openvt`. */
  lemma Span2x04Valid()
    ensures Valid(Applets(Span2x04)) && |Span2x04| == 45
    ensures |Span2x04| > 0 && Span2x04[0].applet.name == "lzma" && Span2x04[|Span2x04| - 1].applet.name == "openvt"
  {
    Span1x12Valid();
    var acc := Span1x12;
    Span1x13Valid();
    assert Less("mkfs.minix", "mkfs.vfat");
    AppletsConcat(acc, Span1x13);
    ValidConcat(Applets(acc), Applets(Span1x13));
    assert (acc + Span1x13)[0] == acc[0];
    assert (acc + Span1x13)[|acc + Span1x13| - 1] == Span1x13[|Span1x13| - 1];
    acc := acc + Span1x13;
    Span1x14Valid();
    assert Less("nanddump", "nandwrite");
    AppletsConcat(acc, Span1x14);
    ValidConcat(Applets(acc), Applets(Span1x14));
    assert (acc + Span1x14)[0] == acc[0];
    assert (acc + Span1x14)[|acc + Span1x14| - 1] == Span1x14[|Span1x14| - 1];
    acc := acc + Span1x14;
    assert acc == Span2x04;
  }

  /** Span2x05 passes the check and runs from `partprobe` to `run-init`. */
  lemma Span2x05Valid()
    ensures Valid(Applets(Span2x05)) && |Span2x05| == 45
    ensures |Span2x05| > 0 && Span2x05[0].applet.name == "partprobe" && Span2x05[|Span2x05| - 1].applet.name == "run-init"
  {
    Span1x15Valid();
    var acc := Span1x15;
    Span1x16Valid();
    assert Less("powertop", "printenv");
    AppletsConcat(acc, Span1x16);
    ValidConcat(Applets(acc), Applets(Span1x16));
    assert (acc + Span1x16)[0] == acc[0];
    assert (acc + Span1x16)[|acc + Span1x16| - 1] == Span1x16[|Span1x16| - 1];
    acc := acc + Span1x16;
    Span1x17Valid();
    assert Less("reboot", "reformime");
    AppletsConcat(acc, Span1x17);
    ValidConcat(Applets(acc), Applets(Span1x17));
    assert (acc + Span1x17)[0] == acc[0];
    assert (acc + Span1x17)[|acc + Span1x17| - 1] == Span1x17[|Span1x17| - 1];
    acc := acc + Span1x17;
    assert acc == Span2x05;
  }

  /** Span2x06 passes the check and runs from `run-parts` to `svlogd`. */
  lemma Span2x06Valid()
    ensures Valid(Applets(Span2x06)) && |Span2x06| == 45
    ensures |Span2x06| > 0 && Span2x06[0].applet.name == "run-parts" && Span2x06[|Span2x06| - 1].applet.name == "svlogd"
  {
    Span1x18Valid();
    var acc := Span1x18;
    Span1x19Valid();
    assert Less("setkeycodes", "setlogcons");
    AppletsConcat(acc, Span1x19);
    ValidConcat(Applets(acc), Applets(Span1x19));
    assert (acc + Span1x19)[0] == acc[0];
    assert (acc + Span1x19)[|acc + Span1x19| - 1] == Span1x19[|Span1x19| - 1];
    acc := acc + Span1x19;
    Span1x20Valid();
    assert Less("sleep", "smemcap");
    AppletsConcat(acc, Span1x20);
    ValidConcat(Applets(acc), Applets(Span1x20));
    assert (acc + Span1x20)[0] == acc[0];
    assert (acc + Span1x20)[|acc + Span1x20| - 1] == Span1x20[|Span1x20| - 1];
    acc := acc + Span1x20;
    assert acc == Span2x06;
  }

  /** Span2x07 passes the check and runs from `svok` to `umount`. */
  lemma Span2x07Valid()
    ensures Valid(Applets(Span2x07)) && |Span2x07| == 45
    ensures |Span2x07| > 0 && Span2x07[0].applet.name == "svok" && Span2x07[|Span2x07| - 1].applet.name == "umount"
  {
    Span1x21Valid();
    var acc := Span1x21;
    Span1x22Valid();
    assert Less("telnet", "telnetd");
    AppletsConcat(acc, Span1x22);
    ValidConcat(Applets(acc), Applets(Span1x22));
    assert (acc + Span1x22)[0] == acc[0];
    assert (acc + Span1x22)[|acc + Span1x22| - 1] == Span1x22[|Span1x22| - 1];
    acc := acc + Span1x22;
    Span1x23Valid();
    assert Less("tty", "ttysize");
    AppletsConcat(acc, Span1x23);
    ValidConcat(Applets(acc), Applets(Span1x23));
    assert (acc + Span1x23)[0] == acc[0];
    assert (acc + Span1x23)[|acc + Span1x23| - 1] == Span1x23[|Span1x23| - 1];
    acc := acc + Span1x23;
    assert acc == Span2x07;
  }

  /** Span2x08 passes the check and runs from `uname` to `zcip`. */
  lemma Span2x08Valid()
    ensures Valid(Applets(Span2x08)) && |Span2x08| == 35
    ensures |Span2x08| > 0 && Span2x08[0].applet.name == "uname" && Span2x08[|Span2x08| - 1].applet.name == "zcip"
  {
    Span1x24Valid();
    var acc := Span1x24;
    Span1x25Valid();
    assert Less("vconfig", "vi");
    AppletsConcat(acc, Span1x25);
    ValidConcat(Applets(acc), Applets(Span1x25));
    assert (acc + Span1x25)[0] == acc[0];
    assert (acc + Span1x25)[|acc + Span1x25| - 1] == Span1x25[|Span1x25| - 1];
    acc := acc + Span1x25;
    Block78Valid();
    assert Less("xxd", "xz");
    AppletsConcat(acc, Block78);
    ValidConcat(Applets(acc), Applets(Block78));
    assert (acc + Block78)[0] == acc[0];
    assert (acc + Block78)[|acc + Block78| - 1] == Block78[|Block78| - 1];
    acc := acc + Block78;
    assert acc == Span2x08;
  }

  /** Span3x00 passes the check and runs from `[` to `inetd`. */
  lemma Span3x00Valid()
    ensures Valid(Applets(Span3x00)) && |Span3x00| == 135
    ensures |Span3x00| > 0 && Span3x00[0].applet.name == "[" && Span3x00[|Span3x00| - 1].applet.name == "inetd"
  {
    Span2x00Valid();
    var acc := Span2x00;
    Span2x01Valid();
    assert Less("crontab", "cryptpw");
    AppletsConcat(acc, Span2x01);
    ValidConcat(Applets(acc), Applets(Span2x01));
    assert (acc + Span2x01)[0] == acc[0];
    assert (acc + Span2x01)[|acc + Span2x01| - 1] == Span2x01[|Span2x01| - 1];
    acc := acc + Span2x01;
    Span2x02Valid();
    assert Less("fgconsole", "fgrep");
    AppletsConcat(acc, Span2x02);
    ValidConcat(Applets(acc), Applets(Span2x02));
    assert (acc + Span2x02)[0] == acc[0];
    assert (acc + Span2x02)[|acc + Span2x02| - 1] == Span2x02[|Span2x02| - 1];
    acc := acc + Span2x02;
    assert acc == Span3x00;
  }

  /** Span3x01 passes the check and runs from `init` to `run-init`. */
  lemma Span3x01Valid()
    ensures Valid(Applets(Span3x01)) && |Span3x01| == 135
    ensures |Span3x01| > 0 && Span3x01[0].applet.name == "init" && Span3x01[|Span3x01| - 1].applet.name == "run-init"
  {
    Span2x03Valid();
    var acc := Span2x03;
    Span2x04Valid();
    assert Less("lzcat", "lzma");
    AppletsConcat(acc, Span2x04);
    ValidConcat(Applets(acc), Applets(Span2x04));
    assert (acc + Span2x04)[0] == acc[0];
    assert (acc + Span2x04)[|acc + Span2x04| - 1] == Span2x04[|Span2x04| - 1];
    acc := acc + Span2x04;
    Span2x05Valid();
    assert Less("openvt", "partprobe");
    AppletsConcat(acc, Span2x05);
    ValidConcat(Applets(acc), Applets(Span2x05));
    assert (acc + Span2x05)[0] == acc[0];
    assert (acc + Span2x05)[|acc + Span2x05| - 1] == Span2x05[|Span2x05| - 1];
    acc := acc + Span2x05;
    assert acc == Span3x01;
  }

  /** Span3x02 passes the check and runs from `run-parts` to `zcip`. */
  lemma Span3x02Valid()
    ensures Valid(Applets(Span3x02)) && |Span3x02| == 125
    ensures |Span3x02| > 0 && Span3x02[0].applet.name == "run-parts" && Span3x02[|Span3x02| - 1].applet.name == "zcip"
  {
    Span2x06Valid();
    var acc := Span2x06;
    Span2x07Valid();
    assert Less("svlogd", "svok");
    AppletsConcat(acc, Span2x07);
    ValidConcat(Applets(acc), Applets(Span2x07));
    assert (acc + Span2x07)[0] == acc[0];
    assert (acc + Span2x07)[|acc + Span2x07| - 1] == Span2x07[|Span2x07| - 1];
    acc := acc + Span2x07;
    Span2x08Valid();
    assert Less("umount", "uname");
    AppletsConcat(acc, Span2x08);
    ValidConcat(Applets(acc), Applets(Span2x08));
    assert (acc + Span2x08)[0] == acc[0];
    assert (acc + Span2x08)[|acc + Span2x08| - 1] == Span2x08[|Span2x08| - 1];
    acc := acc + Span2x08;
    assert acc == Span3x02;
  }

  /** The 395 pushes as written are strictly ascending by name. */
  lemma CandidatesValid()
    ensures Valid(Applets(Candidates)) && |Candidates| == 395
    ensures |Candidates| > 0 && Candidates[0].applet.name == "[" && Candidates[|Candidates| - 1].applet.name == "zcip"
  {
    Span3x00Valid();
    var acc := Span3x00;
    Span3x01Valid();
    assert Less("inetd", "init");
    AppletsConcat(acc, Span3x01);
    ValidConcat(Applets(acc), Applets(Span3x01));
    assert (acc + Span3x01)[0] == acc[0];
    assert (acc + Span3x01)[|acc + Span3x01| - 1] == Span3x01[|Span3x01| - 1];
    acc := acc + Span3x01;
    Span3x02Valid();
    assert Less("run-init", "run-parts");
    AppletsConcat(acc, Span3x02);
    ValidConcat(Applets(acc), Applets(Span3x02));
    assert (acc + Span3x02)[0] == acc[0];
    assert (acc + Span3x02)[|acc + Span3x02| - 1] == Span3x02[|Span3x02| - 1];
    acc := acc + Span3x02;
    assert acc == Candidates;
  }

  /** The table as written never panics: for every selection of build
      features the check passes and the table is the enabled pushes in
      source order, with unique names. */
  lemma EveryBuildSucceeds(enabled: set<Feature>)
    ensures Build(Candidates, enabled) == Success(Filter(Candidates, enabled))
    ensures NamesUnique(Filter(Candidates, enabled))
  {
    CandidatesValid();
    MasterValidBuildsAll(Candidates, enabled);
  }
}
